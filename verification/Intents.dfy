/** Time-bounded intents and their half-open windows (internal/intent/intent.go). */
module Intents {
  import opened Common

  /** Instants as integers, on the one clock of the model. */
  type Time = int

  /** Go's zero time.Time, the value of an absent JSON field. */
  const ZERO_TIME: Time := 0

  datatype Key = Key(source: string, id: string)

  datatype Intent = Intent(
    source: string, id: string, subject: string,
    startsAt: Time, endsAt: Time, cancelled: bool)
  {
    function Identity(): Key { Key(source, id) }
  }

  datatype Phase = Pending | Active | Ended | Cancelled

  datatype InvalidIntent =
    | SourceRequired | IdRequired | SubjectRequired
    | StartRequired | EndRequired | WindowEmpty

  /** Unicode's white space, which strings.TrimSpace strips. */
  predicate IsSpace(c: char) {
    var p := c as int;
    || 0x09 <= p <= 0x0D || p == 0x20 || p == 0x85 || p == 0xA0 || p == 0x1680
    || 0x2000 <= p <= 0x200A || p == 0x2028 || p == 0x2029 || p == 0x202F || p == 0x205F || p == 0x3000
  }

  function TrimLeft(s: string): string {
    if s != "" && IsSpace(s[0]) then TrimLeft(s[1..]) else s
  }

  function TrimRight(s: string): string {
    if s != "" && IsSpace(s[|s| - 1]) then TrimRight(s[..|s| - 1]) else s
  }

  function Trim(s: string): string {
    TrimRight(TrimLeft(s))
  }

  /** Neither end of s is white space. */
  predicate Trimmed(s: string) {
    s == "" || (!IsSpace(s[0]) && !IsSpace(s[|s| - 1]))
  }

  lemma {:induction false} TrimLeftClean(s: string)
    ensures var r := TrimLeft(s); r == "" || !IsSpace(r[0])
  {
    if s != "" && IsSpace(s[0]) { TrimLeftClean(s[1..]); }
  }

  lemma {:induction false} TrimRightClean(s: string)
    requires s == "" || !IsSpace(s[0])
    ensures Trimmed(TrimRight(s))
  {
    if s != "" && IsSpace(s[|s| - 1]) { TrimRightClean(s[..|s| - 1]); }
  }

  lemma TrimCleans(s: string)
    ensures Trimmed(Trim(s))
    ensures Trimmed(s) ==> Trim(s) == s
  {
    TrimLeftClean(s);
    TrimRightClean(TrimLeft(s));
  }

  ghost predicate AllSpace(s: string) {
    forall i :: 0 <= i < |s| ==> IsSpace(s[i])
  }

  lemma {:induction false} TrimLeftCuts(s: string) returns (cut: string)
    ensures s == cut + TrimLeft(s) && AllSpace(cut)
  {
    if s != "" && IsSpace(s[0]) {
      cut := TrimLeftCuts(s[1..]);
      cut := [s[0]] + cut;
    } else {
      cut := "";
    }
  }

  lemma {:induction false} TrimRightCuts(s: string) returns (cut: string)
    ensures s == TrimRight(s) + cut && AllSpace(cut)
  {
    if s != "" && IsSpace(s[|s| - 1]) {
      cut := TrimRightCuts(s[..|s| - 1]);
      cut := cut + [s[|s| - 1]];
    } else {
      cut := "";
    }
  }

  /** Trimming cuts off white space at the two ends and nothing else. */
  lemma TrimCutsSpace(s: string) returns (left: string, right: string)
    ensures s == left + Trim(s) + right && AllSpace(left) && AllSpace(right)
  {
    left := TrimLeftCuts(s);
    right := TrimRightCuts(TrimLeft(s));
  }

  /** The check that an error reports, and its place among the checks. */
  ghost predicate Fails(i: Intent, check: InvalidIntent) {
    match check
    case SourceRequired => i.source == ""
    case IdRequired => i.id == ""
    case SubjectRequired => i.subject == ""
    case StartRequired => i.startsAt == ZERO_TIME
    case EndRequired => i.endsAt == ZERO_TIME
    case WindowEmpty => i.endsAt <= i.startsAt
  }

  ghost function Place(check: InvalidIntent): nat {
    match check
    case SourceRequired => 0
    case IdRequired => 1
    case SubjectRequired => 2
    case StartRequired => 3
    case EndRequired => 4
    case WindowEmpty => 5
  }

  /** Validate trims the three identifiers through its receiver, then reports
      the first missing or impossible field. */
  method Validate(i: Intent) returns (trimmed: Intent, error: Option<InvalidIntent>)
    ensures trimmed == i.(source := Trim(i.source), id := Trim(i.id), subject := Trim(i.subject))
    ensures error.None? <==> Valid(trimmed)
    ensures error.None? ==> forall c: InvalidIntent :: !Fails(trimmed, c)
    ensures error.Some? ==>
      Fails(trimmed, error.value) && forall c: InvalidIntent :: Place(c) < Place(error.value) ==> !Fails(trimmed, c)
  {
    trimmed := i.(source := Trim(i.source), id := Trim(i.id), subject := Trim(i.subject));
    TrimCleans(i.source);
    TrimCleans(i.id);
    TrimCleans(i.subject);
    if trimmed.source == "" { return trimmed, Some(SourceRequired); }
    if trimmed.id == "" { return trimmed, Some(IdRequired); }
    if trimmed.subject == "" { return trimmed, Some(SubjectRequired); }
    if trimmed.startsAt == ZERO_TIME { return trimmed, Some(StartRequired); }
    if trimmed.endsAt == ZERO_TIME { return trimmed, Some(EndRequired); }
    if !(trimmed.startsAt < trimmed.endsAt) { return trimmed, Some(WindowEmpty); }
    return trimmed, None;
  }

  /** What every stored intent satisfies. */
  predicate Valid(i: Intent) {
    && i.source != "" && i.id != "" && i.subject != ""
    && Trimmed(i.source) && Trimmed(i.id) && Trimmed(i.subject)
    && i.startsAt != ZERO_TIME && i.endsAt != ZERO_TIME
    && i.startsAt < i.endsAt
  }

  function PhaseAt(i: Intent, now: Time): Phase {
    if i.cancelled then Cancelled
    else if now < i.startsAt then Pending
    else if now < i.endsAt then Active
    else Ended
  }

  function NextTransitionAt(i: Intent, now: Time): Option<Time> {
    if i.cancelled || !(now < i.endsAt) then None
    else if now < i.startsAt then Some(i.startsAt)
    else Some(i.endsAt)
  }

  /** The instants at which the phase of i changes. */
  function Boundaries(i: Intent): set<Time> {
    if i.cancelled then {} else {i.startsAt, i.endsAt}
  }
}
