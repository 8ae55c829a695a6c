/** Log filters of subscriptions (src/ws/subscription.rs).  Addresses and topics are ASCII. */
module LogFilter {
  import opened Wrappers
  import opened Json

  datatype Filter = Filter(address: Option<seq<string>>, topics: Option<seq<Option<seq<string>>>>)

  function LowerChar(c: char): char {
    if 'A' <= c <= 'Z' then c - 'A' + 'a' else c
  }

  function Lower(s: string): string {
    seq(|s|, i requires 0 <= i < |s| => LowerChar(s[i]))
  }

  predicate SameIgnoringCase(a: string, b: string) {
    Lower(a) == Lower(b)
  }

  predicate AnySame(values: seq<string>, s: string) {
    exists i :: 0 <= i < |values| && SameIgnoringCase(values[i], s)
  }

  /** The strings of an array, in order; other entries are skipped. */
  function Strings(items: seq<Json>): seq<string> {
    if items == [] then []
    else if items[0].Str? then [items[0].s] + Strings(items[1..]) else Strings(items[1..])
  }

  function LowerAll(ss: seq<string>): seq<string> {
    seq(|ss|, i requires 0 <= i < |ss| => Lower(ss[i]))
  }

  /** One string or a list of strings, in lower case; anything else means no restriction. */
  function Alternatives(v: Json): Option<seq<string>> {
    match v
    case Str(s) => Some([Lower(s)])
    case Arr(items) => Some(LowerAll(Strings(items)))
    case _ => None
  }

  function TopicAlternatives(items: seq<Json>): seq<Option<seq<string>>> {
    seq(|items|, i requires 0 <= i < |items| => Alternatives(items[i]))
  }

  function FromValue(v: Json): Filter {
    Filter(
      match v.Get("address") case Some(a) => Alternatives(a) case None => None,
      match v.Get("topics") case Some(Arr(items)) => Some(TopicAlternatives(items)) case _ => None)
  }

  /** The topics of a log that are strings, in order. */
  function LogTopics(log: Json): seq<string> {
    match log.Get("topics")
    case Some(Arr(items)) => Strings(items)
    case _ => []
  }

  predicate TopicsMatch(filters: seq<Option<seq<string>>>, topics: seq<string>) {
    forall i :: 0 <= i < |filters| && filters[i].Some? ==> i < |topics| && AnySame(filters[i].value, topics[i])
  }

  predicate Matches(f: Filter, log: Json) {
    && (f.address.Some? ==>
          var address := StrField(log, "address");
          address.Some? && AnySame(f.address.value, address.value))
    && (f.topics.Some? ==> TopicsMatch(f.topics.value, LowerAll(LogTopics(log))))
  }

  // ---------- the reference: what the filter document says ----------

  /** A criterion accepts a string: it is that string, or a list with that string in it, in any
      case.  Anything else accepts everything, and the empty list accepts nothing. */
  predicate CriterionAccepts(criterion: Json, s: string) {
    match criterion
    case Str(c) => SameIgnoringCase(c, s)
    case Arr(items) => exists i :: 0 <= i < |items| && items[i].Str? && SameIgnoringCase(items[i].s, s)
    case _ => true
  }

  predicate Restricts(criterion: Json) {
    criterion.Str? || criterion.Arr?
  }

  /** The log passes the filter document: its address is accepted, and at every position with a
      restricting criterion there is a topic and it is accepted. */
  predicate Accepts(v: Json, log: Json) {
    && (match v.Get("address")
        case None => true
        case Some(criterion) =>
          Restricts(criterion) ==>
            match StrField(log, "address") case Some(a) => CriterionAccepts(criterion, a) case None => false)
    && (match v.Get("topics")
        case Some(Arr(criteria)) =>
          forall i :: 0 <= i < |criteria| && Restricts(criteria[i]) ==>
            i < |LogTopics(log)| && CriterionAccepts(criteria[i], LogTopics(log)[i])
        case _ => true)
  }

  lemma LowerTwice(s: string)
    ensures Lower(Lower(s)) == Lower(s)
  {
  }

  lemma {:induction false} StringsAre(items: seq<Json>, s: string)
    ensures s in Strings(items) <==> exists i :: 0 <= i < |items| && items[i] == Str(s)
  {
    if items != [] {
      StringsAre(items[1..], s);
      if exists i :: 0 <= i < |items| && items[i] == Str(s) {
        var i :| 0 <= i < |items| && items[i] == Str(s);
        if i > 0 { assert items[1..][i - 1] == Str(s); }
      }
    }
  }

  /** Filtering by the stored alternatives is filtering by the criterion. */
  lemma AlternativesAccept(criterion: Json, s: string)
    ensures Alternatives(criterion).Some? <==> Restricts(criterion)
    ensures Restricts(criterion) ==> (AnySame(Alternatives(criterion).value, s) <==> CriterionAccepts(criterion, s))
  {
    match criterion
    case Str(c) =>
      LowerTwice(c);
      assert Alternatives(criterion).value[0] == Lower(c);
    case Arr(items) =>
      var ss := Strings(items);
      if AnySame(LowerAll(ss), s) {
        var k :| 0 <= k < |ss| && SameIgnoringCase(LowerAll(ss)[k], s);
        LowerTwice(ss[k]);
        StringsAre(items, ss[k]);
      }
      if CriterionAccepts(criterion, s) {
        var i :| 0 <= i < |items| && items[i].Str? && SameIgnoringCase(items[i].s, s);
        StringsAre(items, items[i].s);
        var k :| 0 <= k < |ss| && ss[k] == items[i].s;
        LowerTwice(ss[k]);
        assert LowerAll(ss)[k] == Lower(ss[k]);
      }
    case _ =>
  }

  lemma AnySameRespectsCase(values: seq<string>, s: string, t: string)
    requires SameIgnoringCase(s, t)
    ensures AnySame(values, s) <==> AnySame(values, t)
  {
  }

  /** A parsed filter matches a log exactly when the filter document accepts it. */
  lemma MatchesIffAccepts(v: Json, log: Json)
    ensures Matches(FromValue(v), log) <==> Accepts(v, log)
  {
    if v.Get("address").Some? && StrField(log, "address").Some? {
      AlternativesAccept(v.Get("address").value, StrField(log, "address").value);
    } else if v.Get("address").Some? {
      AlternativesAccept(v.Get("address").value, "");
    }
    if v.Get("topics").Some? && v.Get("topics").value.Arr? {
      TopicsMatchIff(v.Get("topics").value.items, LogTopics(log));
    }
  }

  lemma TopicsMatchIff(criteria: seq<Json>, topics: seq<string>)
    ensures TopicsMatch(TopicAlternatives(criteria), LowerAll(topics))
       <==> forall i :: 0 <= i < |criteria| && Restricts(criteria[i]) ==>
              i < |topics| && CriterionAccepts(criteria[i], topics[i])
  {
    forall i | 0 <= i < |criteria|
      ensures TopicAlternatives(criteria)[i].Some? <==> Restricts(criteria[i])
      ensures Restricts(criteria[i]) && i < |topics| ==>
        (AnySame(TopicAlternatives(criteria)[i].value, LowerAll(topics)[i]) <==> CriterionAccepts(criteria[i], topics[i]))
    {
      AlternativesAccept(criteria[i], if i < |topics| then topics[i] else "");
      if i < |topics| && Restricts(criteria[i]) {
        LowerTwice(topics[i]);
        AnySameRespectsCase(TopicAlternatives(criteria)[i].value, topics[i], LowerAll(topics)[i]);
      }
    }
  }

  // ---------- positions ----------

  /** The topics of a log as it stands. */
  function OwnTopics(log: Json): seq<Json> {
    match log.Get("topics")
    case Some(Arr(items)) => items
    case _ => []
  }

  /** Like Accepts, but a position counts the entries of the log's own array: at every position with
      a restricting criterion the log has a string there, and it is accepted. */
  predicate AcceptsInPlace(v: Json, log: Json) {
    && (match v.Get("address")
        case None => true
        case Some(criterion) =>
          Restricts(criterion) ==>
            match StrField(log, "address") case Some(a) => CriterionAccepts(criterion, a) case None => false)
    && (match v.Get("topics")
        case Some(Arr(criteria)) =>
          forall i :: 0 <= i < |criteria| && Restricts(criteria[i]) ==>
            i < |OwnTopics(log)| && OwnTopics(log)[i].Str? && CriterionAccepts(criteria[i], OwnTopics(log)[i].s)
        case _ => true)
  }

  /** No string comes after an entry that is no string. */
  predicate StringsFirst(items: seq<Json>) {
    forall i, j :: 0 <= i < j < |items| && items[j].Str? ==> items[i].Str?
  }

  lemma {:induction false} NoStrings(items: seq<Json>)
    requires forall i :: 0 <= i < |items| ==> !items[i].Str?
    ensures Strings(items) == []
  {
    if items != [] {
      NoStrings(items[1..]);
    }
  }

  lemma {:induction false} StringsInPlace(items: seq<Json>, i: nat)
    requires StringsFirst(items)
    ensures i < |Strings(items)| <==> i < |items| && items[i].Str?
    ensures i < |Strings(items)| ==> Strings(items)[i] == items[i].s
  {
    if items != [] {
      if !items[0].Str? {
        NoStrings(items);
      } else if i > 0 {
        StringsInPlace(items[1..], i - 1);
      }
    }
  }

  lemma InPlaceIff(v: Json, log: Json)
    requires StringsFirst(OwnTopics(log))
    ensures Accepts(v, log) <==> AcceptsInPlace(v, log)
  {
    var topics, own := LogTopics(log), OwnTopics(log);
    if own == [] {
      assert topics == [];
    } else {
      assert topics == Strings(own);
    }
    forall i: nat
      ensures i < |topics| <==> i < |own| && own[i].Str?
      ensures i < |topics| ==> topics[i] == own[i].s
    {
      StringsInPlace(own, i);
    }
  }

  /** Entries that are no strings are left out before positions are counted.  This makes no difference
      to any filter if and only if such entries come last. */
  lemma PositionsAreOwnIff(log: Json)
    ensures StringsFirst(OwnTopics(log)) <==> forall v :: Matches(FromValue(v), log) <==> AcceptsInPlace(v, log)
  {
    if StringsFirst(OwnTopics(log)) {
      forall v ensures Matches(FromValue(v), log) <==> AcceptsInPlace(v, log) {
        MatchesIffAccepts(v, log);
        InPlaceIff(v, log);
      }
    } else {
      var v := ShiftedFilter(log);
    }
  }

  lemma {:induction false} FirstGap(items: seq<Json>) returns (gap: nat, next: nat)
    requires !StringsFirst(items)
    ensures gap < next < |items| && !items[gap].Str? && items[next].Str?
    ensures gap < |Strings(items)| && Strings(items)[gap] == items[next].s
  {
    if items[0].Str? {
      assert forall i, j :: 0 <= i < j < |items| && items[j].Str? && !items[i].Str? ==>
        items[1..][j - 1].Str? && !items[1..][i - 1].Str?;
      var g, n := FirstGap(items[1..]);
      gap, next := g + 1, n + 1;
    } else {
      gap := 0;
      next := FirstString(items);
    }
  }

  lemma {:induction false} FirstString(items: seq<Json>) returns (k: nat)
    requires exists i :: 0 <= i < |items| && items[i].Str?
    ensures k < |items| && items[k].Str? && Strings(items) != [] && Strings(items)[0] == items[k].s
  {
    if items[0].Str? {
      k := 0;
    } else {
      var i :| 0 <= i < |items| && items[i].Str?;
      assert items[1..][i - 1].Str?;
      var j := FirstString(items[1..]);
      k := j + 1;
    }
  }

  /** Otherwise a filter for the string that moved up matches, although it is not where the filter
      says. */
  lemma ShiftedFilter(log: Json) returns (v: Json)
    requires !StringsFirst(OwnTopics(log))
    ensures Matches(FromValue(v), log) && !AcceptsInPlace(v, log)
  {
    var items := OwnTopics(log);
    var gap, next := FirstGap(items);
    var criteria := seq(gap, i => Null) + [Str(items[next].s)];
    var fields := [("topics", Arr(criteria))];
    v := Obj(fields);
    assert fields[1..] == [] && FieldOf(fields[1..], "address") == None;
    assert v.Get("address") == None;
    assert v.Get("topics") == Some(Arr(criteria));
    assert LogTopics(log) == Strings(items);
    assert Restricts(criteria[gap]) && !items[gap].Str?;
    MatchesIffAccepts(v, log);
  }

  // ---------- letters ----------

  /** The two logs have the same address and topics but for the case of letters. */
  ghost predicate SameLog(a: Json, b: Json) {
    && (match (StrField(a, "address"), StrField(b, "address"))
        case (Some(x), Some(y)) => SameIgnoringCase(x, y)
        case (None, None) => true
        case _ => false)
    && LowerAll(LogTopics(a)) == LowerAll(LogTopics(b))
  }

  ghost predicate SameValues(a: Option<seq<string>>, b: Option<seq<string>>) {
    match (a, b)
    case (Some(x), Some(y)) => LowerAll(x) == LowerAll(y)
    case (None, None) => true
    case _ => false
  }

  ghost predicate SameFilter(f: Filter, g: Filter) {
    && SameValues(f.address, g.address)
    && match (f.topics, g.topics)
       case (Some(x), Some(y)) => |x| == |y| && forall i :: 0 <= i < |x| ==> SameValues(x[i], y[i])
       case (None, None) => true
       case _ => false
  }

  lemma SameValuesMatch(a: seq<string>, b: seq<string>, s: string)
    requires LowerAll(a) == LowerAll(b)
    ensures AnySame(a, s) <==> AnySame(b, s)
  {
    assert |a| == |LowerAll(a)| == |LowerAll(b)| == |b|;
    forall i | 0 <= i < |a| ensures Lower(a[i]) == Lower(b[i]) {
      assert LowerAll(a)[i] == LowerAll(b)[i];
    }
  }

  /** Matching ignores the case of letters on both sides. */
  lemma MatchingIgnoresCase(f: Filter, g: Filter, a: Json, b: Json)
    requires SameFilter(f, g) && SameLog(a, b)
    ensures Matches(f, a) <==> Matches(g, b)
  {
    if f.address.Some? && StrField(a, "address").Some? {
      SameValuesMatch(f.address.value, g.address.value, StrField(a, "address").value);
      AnySameRespectsCase(g.address.value, StrField(a, "address").value, StrField(b, "address").value);
    }
    if f.topics.Some? {
      var topics := LowerAll(LogTopics(a));
      forall i | 0 <= i < |f.topics.value| && f.topics.value[i].Some? && i < |topics|
        ensures AnySame(f.topics.value[i].value, topics[i]) <==> AnySame(g.topics.value[i].value, topics[i])
      {
        assert SameValues(f.topics.value[i], g.topics.value[i]);
        SameValuesMatch(f.topics.value[i].value, g.topics.value[i].value, topics[i]);
      }
      forall i | 0 <= i < |f.topics.value| ensures f.topics.value[i].Some? <==> g.topics.value[i].Some? {
        assert SameValues(f.topics.value[i], g.topics.value[i]);
      }
    }
  }
}
