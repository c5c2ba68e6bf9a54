/** The terminal-event condition of a run, "topic:field=value:field=value": matchesTerminalEvent in
    internal/server/run_status_handler.go. */
module TerminalEvent {

  datatype Value = Text(text: string) | NotText
  type Payload = map<string, Value>

  /** A missing field and a value that is no string both count as empty. */
  function TextOf(payload: Payload, field: string): string {
    if field in payload && payload[field].Text? then payload[field].text else ""
  }

  datatype Cut = Whole(s: string) | Parts(left: string, right: string)

  /** Cuts at the first `c`. */
  function CutAt(s: string, c: char): Cut {
    if s == "" then Whole(s)
    else if s[0] == c then Parts("", s[1..])
    else match CutAt(s[1..], c)
      case Whole(_) => Whole(s)
      case Parts(left, right) => Parts([s[0]] + left, right)
  }

  /** Cuts at every `c`. */
  function Split(s: string, c: char): seq<string>
    decreases |s|
  {
    match CutAt(s, c)
    case Whole(_) => [s]
    case Parts(left, right) => CutShortens(s, c); [left] + Split(right, c)
  }

  lemma CutShortens(s: string, c: char)
    ensures CutAt(s, c).Parts? ==> |CutAt(s, c).right| < |s|
  {
  }

  /** A qualifier without '=' is ignored. */
  predicate Holds(qualifier: string, payload: Payload) {
    match CutAt(qualifier, '=')
    case Whole(_) => true
    case Parts(field, want) => TextOf(payload, field) == want
  }

  predicate Matches(condition: string, topic: string, payload: Payload) {
    if condition == "" then false
    else match CutAt(condition, ':')
      case Whole(all) => all == topic
      case Parts(wanted, qualifiers) =>
        wanted == topic && forall q :: q in Split(qualifiers, ':') ==> Holds(q, payload)
  }

  /* ---- Printing a condition ---- */

  datatype Qualifier = Field(name: string, value: string) | Bare(text: string)

  /** A qualifier that names no value asks for nothing. */
  predicate Meets(q: Qualifier, payload: Payload) {
    q.Field? ==> TextOf(payload, q.name) == q.value
  }

  function PrintQualifiers(qualifiers: seq<Qualifier>): string
    decreases |qualifiers|, 0
  {
    if qualifiers == [] then "" else ":" + PrintFrom(qualifiers[0], qualifiers[1..])
  }

  /** The qualifiers without the leading colon. */
  function PrintFrom(first: Qualifier, more: seq<Qualifier>): string
    decreases |more|, 1
  {
    PrintOne(first) + PrintQualifiers(more)
  }

  function PrintOne(q: Qualifier): string {
    match q
    case Field(name, value) => name + "=" + value
    case Bare(text) => text
  }

  function PrintCondition(topic: string, qualifiers: seq<Qualifier>): string {
    topic + PrintQualifiers(qualifiers)
  }

  predicate Printable(q: Qualifier) {
    match q
    case Field(name, value) => ':' !in name && '=' !in name && ':' !in value
    case Bare(text) => ':' !in text && '=' !in text
  }

  lemma {:induction false} CutAtFirst(a: string, c: char, b: string)
    requires c !in a
    ensures CutAt(a + [c] + b, c) == Parts(a, b)
    ensures CutAt(a, c) == Whole(a)
  {
    if a == "" {
      assert (a + [c] + b)[1..] == b;
    } else {
      assert (a + [c] + b)[1..] == a[1..] + [c] + b;
      assert [a[0]] + a[1..] == a;
      CutAtFirst(a[1..], c, b);
    }
  }

  /** Splitting printed qualifiers gives them back one by one. */
  lemma SplitPrinted(q: Qualifier, more: seq<Qualifier>)
    requires Printable(q)
    ensures Split(PrintFrom(q, more), ':')
            == [PrintOne(q)] + (if more == [] then [] else Split(PrintFrom(more[0], more[1..]), ':'))
  {
    var text := PrintOne(q);
    assert ':' !in text;
    if more == [] {
      assert PrintFrom(q, more) == text;
      CutAtFirst(text, ':', "");
    } else {
      var rest := PrintFrom(more[0], more[1..]);
      assert PrintFrom(q, more) == text + [':'] + rest;
      CutAtFirst(text, ':', rest);
    }
  }

  lemma PrintedHolds(q: Qualifier, payload: Payload)
    requires Printable(q)
    ensures Holds(PrintOne(q), payload) <==> Meets(q, payload)
  {
    match q
    case Field(name, value) =>
      assert PrintOne(q) == name + ['='] + value;
      CutAtFirst(name, '=', value);
    case Bare(text) => CutAtFirst(text, '=', "");
  }

  lemma {:induction false} AllPrintedHold(q: Qualifier, more: seq<Qualifier>, payload: Payload)
    requires Printable(q) && forall p :: p in more ==> Printable(p)
    ensures (forall t :: t in Split(PrintFrom(q, more), ':') ==> Holds(t, payload))
            <==> Meets(q, payload) && forall p :: p in more ==> Meets(p, payload)
    decreases |more|
  {
    SplitPrinted(q, more);
    PrintedHolds(q, payload);
    if more != [] {
      AllPrintedHold(more[0], more[1..], payload);
      assert more == [more[0]] + more[1..];
    }
  }

  /** Round trip: a printed condition matches exactly the events with its topic whose payload has every listed value. */
  lemma PrintedConditionMatches(topic: string, qualifiers: seq<Qualifier>, heard: string, payload: Payload)
    requires PrintCondition(topic, qualifiers) != "" && ':' !in topic && forall q :: q in qualifiers ==> Printable(q)
    ensures Matches(PrintCondition(topic, qualifiers), heard, payload)
            <==> heard == topic && forall q :: q in qualifiers && q.Field? ==> TextOf(payload, q.name) == q.value
  {
    if qualifiers == [] {
      assert PrintCondition(topic, qualifiers) == topic;
      CutAtFirst(topic, ':', "");
    } else {
      var first, more := qualifiers[0], qualifiers[1..];
      PrintedCut(topic, first, more);
      AllPrintedHold(first, more, payload);
      assert qualifiers == [first] + more;
    }
  }

  lemma PrintedCut(topic: string, first: Qualifier, more: seq<Qualifier>)
    requires ':' !in topic
    ensures CutAt(PrintCondition(topic, [first] + more), ':') == Parts(topic, PrintFrom(first, more))
  {
    assert ([first] + more)[1..] == more;
    assert PrintCondition(topic, [first] + more) == topic + [':'] + PrintFrom(first, more);
    CutAtFirst(topic, ':', PrintFrom(first, more));
  }

  /* ---- Reading a condition ---- */

  lemma {:induction false} CutGivesBack(s: string, c: char)
    ensures match CutAt(s, c)
            case Whole(all) => all == s && c !in s
            case Parts(left, right) => c !in left && s == left + [c] + right
  {
    if s != "" {
      assert s == [s[0]] + s[1..];
      CutGivesBack(s[1..], c);
    }
  }

  lemma {:induction false} AnyQualifiers(s: string) returns (first: Qualifier, more: seq<Qualifier>)
    ensures Printable(first) && (forall q :: q in more ==> Printable(q)) && PrintFrom(first, more) == s
    decreases |s|
  {
    CutGivesBack(s, ':');
    match CutAt(s, ':')
    case Whole(_) =>
      more := [];
      first := AnyQualifier(s);
    case Parts(left, right) =>
      var next, rest := AnyQualifiers(right);
      more := [next] + rest;
      first := AnyQualifier(left);
      assert more[1..] == rest;
  }

  lemma AnyQualifier(s: string) returns (q: Qualifier)
    requires ':' !in s
    ensures Printable(q) && PrintOne(q) == s
  {
    CutGivesBack(s, '=');
    match CutAt(s, '=')
    case Whole(_) => q := Bare(s);
    case Parts(left, right) => q := Field(left, right);
  }

  /** Every condition is a printed one, so that PrintedConditionMatches speaks of all of them. */
  lemma AnyCondition(condition: string) returns (topic: string, qualifiers: seq<Qualifier>)
    ensures ':' !in topic && (forall q :: q in qualifiers ==> Printable(q))
    ensures PrintCondition(topic, qualifiers) == condition
  {
    CutGivesBack(condition, ':');
    match CutAt(condition, ':')
    case Whole(_) =>
      topic, qualifiers := condition, [];
    case Parts(left, right) =>
      var first, more := AnyQualifiers(right);
      topic, qualifiers := left, [first] + more;
      assert qualifiers[1..] == more;
  }
}
