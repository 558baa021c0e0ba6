/** The canonical text of a subscription catalogue, its digest, and the generation a snapshot gets
    (src/snapshot_builder.cpp). */
module SubscriptionSnapshots {
  import opened KeyprovBytes

  datatype Direction = Up | Down | Bidirectional

  datatype Criticality = Optional | GlobalMandatory | CapabilityMandatory

  datatype Item = Item(
    routeId: string, topic: string, direction: Direction, qos: u8, target: string, mandatory: bool,
    enabled: Option<bool>, scope: string, criticality: Criticality)

  // ---- The order of route ids: std::string's operator< ----

  predicate Less(a: string, b: string)
  {
    b != [] && (a == [] || a[0] < b[0] || (a[0] == b[0] && Less(a[1..], b[1..])))
  }

  lemma {:induction false} LessIsTransitive(a: string, b: string, c: string)
    requires Less(a, b) && Less(b, c)
    ensures Less(a, c)
  {
    if a != [] && a[0] == b[0] && b[0] == c[0] { LessIsTransitive(a[1..], b[1..], c[1..]); }
  }

  lemma {:induction false} LessIsTotal(a: string, b: string)
    ensures a == b || Less(a, b) || Less(b, a)
  {
    if a != [] && b != [] && a[0] == b[0] {
      LessIsTotal(a[1..], b[1..]);
      assert a == [a[0]] + a[1..] && b == [b[0]] + b[1..];
    }
  }

  lemma {:induction false} LessIsIrreflexive(a: string)
    ensures !Less(a, a)
  {
    if a != [] { LessIsIrreflexive(a[1..]); }
  }

  // ---- sorted_by_route_id ----

  /** Stable: an item goes behind all that are not greater. */
  function Insert(x: Item, v: seq<Item>): (r: seq<Item>)
    ensures multiset(r) == multiset(v) + multiset{x}
  {
    if v == [] then [x]
    else
      assert v == [v[0]] + v[1..];
      if Less(x.routeId, v[0].routeId) then [x] + v else [v[0]] + Insert(x, v[1..])
  }

  function SortedByRouteId(v: seq<Item>): (r: seq<Item>)
    ensures multiset(r) == multiset(v)
  {
    if v == [] then []
    else
      assert v == v[..|v| - 1] + [v[|v| - 1]];
      Insert(v[|v| - 1], SortedByRouteId(v[..|v| - 1]))
  }

  ghost predicate UniqueRoutes(v: seq<Item>)
  {
    forall i, j :: 0 <= i < j < |v| ==> v[i].routeId != v[j].routeId
  }

  ghost predicate Increasing(v: seq<Item>)
  {
    forall i, j :: 0 <= i < j < |v| ==> Less(v[i].routeId, v[j].routeId)
  }

  lemma {:induction false} InsertKeepsOrder(x: Item, v: seq<Item>)
    requires Increasing(v) && forall y :: y in v ==> y.routeId != x.routeId
    ensures Increasing(Insert(x, v))
  {
    if v != [] {
      assert v == [v[0]] + v[1..];
      var r := Insert(x, v);
      if Less(x.routeId, v[0].routeId) {
        forall j | 0 < j < |r| ensures Less(r[0].routeId, r[j].routeId) {
          if j > 1 { LessIsTransitive(x.routeId, v[0].routeId, v[j - 1].routeId); }
        }
      } else {
        LessIsTotal(x.routeId, v[0].routeId);
        InsertKeepsOrder(x, v[1..]);
        var t := Insert(x, v[1..]);
        forall j | 0 <= j < |t| ensures Less(v[0].routeId, t[j].routeId) {
          assert t[j] in multiset(t);
          assert t[j] in multiset(v[1..]) + multiset{x};
        }
      }
    }
  }

  lemma {:induction false} SortingOrders(v: seq<Item>)
    requires UniqueRoutes(v)
    ensures Increasing(SortedByRouteId(v)) && multiset(SortedByRouteId(v)) == multiset(v)
  {
    if v != [] {
      var front, last := v[..|v| - 1], v[|v| - 1];
      SortingOrders(front);
      forall y | y in SortedByRouteId(front) ensures y.routeId != last.routeId {
        assert y in multiset(SortedByRouteId(front));
        assert y in front;
        var k :| 0 <= k < |front| && front[k] == y;
        assert v[k] == y;
      }
      InsertKeepsOrder(last, SortedByRouteId(front));
    }
  }

  /** The least element comes first. */
  lemma SameHead(a: seq<Item>, b: seq<Item>)
    requires Increasing(a) && Increasing(b) && a != [] && b != [] && a[0] in b && b[0] in a
    ensures a[0] == b[0]
  {
    var i :| 0 <= i < |b| && b[i] == a[0];
    var j :| 0 <= j < |a| && a[j] == b[0];
    if i != 0 && j != 0 {
      LessIsTransitive(a[0].routeId, b[0].routeId, a[0].routeId);
      LessIsIrreflexive(a[0].routeId);
    }
  }

  lemma DropHead(a: seq<Item>)
    requires a != []
    ensures multiset(a[1..]) == multiset(a) - multiset{a[0]}
  {
    assert a == [a[0]] + a[1..];
  }

  /** A list in strictly increasing order is determined by its elements. */
  lemma {:induction false} IncreasingIsUnique(a: seq<Item>, b: seq<Item>)
    requires Increasing(a) && Increasing(b) && multiset(a) == multiset(b)
    ensures a == b
  {
    assert |a| == |multiset(a)| == |b|;
    if a != [] {
      assert a[0] in multiset(b) && b[0] in multiset(a);
      SameHead(a, b);
      DropHead(a);
      DropHead(b);
      IncreasingIsUnique(a[1..], b[1..]);
      assert a == [a[0]] + a[1..] && b == [b[0]] + b[1..];
    }
  }

  // ---- serialize_item and compute_digest ----

  function DirectionName(d: Direction): string
  {
    match d
    case Up => "UP"
    case Down => "DOWN"
    case Bidirectional => "BIDIRECTIONAL"
  }

  function CriticalityName(c: Criticality): string
  {
    match c
    case Optional => "OPTIONAL"
    case GlobalMandatory => "GLOBAL_MANDATORY"
    case CapabilityMandatory => "CAPABILITY_MANDATORY"
  }

  function Decimal(n: nat): string
  {
    if n < 10 then ["0123456789"[n]] else Decimal(n / 10) + ["0123456789"[n % 10]]
  }

  function EnabledText(e: Option<bool>): string
  {
    if e.None? then "-" else if e.value then "1" else "0"
  }

  function Fields(it: Item): (f: seq<string>)
    ensures |f| == 9
  {
    [it.routeId, it.topic, DirectionName(it.direction), Decimal(it.qos), it.target,
     if it.mandatory then "1" else "0", EnabledText(it.enabled), it.scope, CriticalityName(it.criticality)]
  }

  /** The fields with a bar between each two. */
  function Join(fields: seq<string>): string
    requires fields != []
  {
    if |fields| == 1 then fields[0] else fields[0] + "|" + Join(fields[1..])
  }

  function SerializeItem(it: Item): string
  {
    Join(Fields(it))
  }

  /** One line per item. */
  function Lines(v: seq<Item>): string
  {
    if v == [] then "" else SerializeItem(v[0]) + "\n" + Lines(v[1..])
  }

  /** SHA-256 in hexadecimal, taken to be injective; there is none before anything is stored. */
  datatype ContentDigest = NoDigest | HashOf(text: string)

  function DigestOf(items: seq<Item>): ContentDigest
  {
    HashOf(Lines(SortedByRouteId(items)))
  }

  /** compute_digest: the loop over the sorted items. */
  method ComputeDigest(items: seq<Item>) returns (d: ContentDigest)
    ensures d == DigestOf(items)
  {
    var sorted := SortedByRouteId(items);
    var canonical := "";
    for i := 0 to |sorted|
      invariant canonical + Lines(sorted[i..]) == Lines(sorted)
    {
      assert sorted[i..][1..] == sorted[i + 1..];
      ghost var before := canonical;
      canonical := canonical + SerializeItem(sorted[i]);
      canonical := canonical + "\n";
      assert canonical + Lines(sorted[i + 1..]) == before + Lines(sorted[i..]);
    }
    assert canonical + Lines(sorted[|sorted|..]) == canonical;
    return HashOf(canonical);
  }

  // ---- The text tells item sets apart, if there is no bar in the fields ----

  predicate Clean(it: Item)
  {
    '|' !in it.routeId && '|' !in it.topic && '|' !in it.target && '|' !in it.scope
  }

  ghost predicate AllClean(v: seq<Item>)
  {
    forall i :: 0 <= i < |v| ==> Clean(v[i])
  }

  /** The part of s before the first c. */
  function Before(s: string, c: char): string
  {
    if s == "" || s[0] == c then "" else [s[0]] + Before(s[1..], c)
  }

  lemma {:induction false} BeforeSeparator(x: string, c: char, rest: string)
    requires c !in x
    ensures Before(x + [c] + rest, c) == x
  {
    if x == "" {
      assert (x + [c] + rest)[0] == c;
    } else {
      assert (x + [c] + rest)[0] == x[0] && (x + [c] + rest)[1..] == x[1..] + [c] + rest;
      BeforeSeparator(x[1..], c, rest);
    }
  }

  /** Two texts split at the first separator in one way only. */
  lemma SplitUnique(x: string, y: string, c: char, r: string, t: string)
    requires c !in x && c !in y && x + [c] + r == y + [c] + t
    ensures x == y && r == t
  {
    BeforeSeparator(x, c, r);
    BeforeSeparator(y, c, t);
    assert (x + [c] + r)[|x| + 1..] == r && (y + [c] + t)[|y| + 1..] == t;
  }

  lemma {:induction false} JoinIsInjective(a: seq<string>, b: seq<string>)
    requires |a| == |b| > 0 && Join(a) == Join(b)
    requires forall i :: 0 <= i < |a| ==> '|' !in a[i] && '|' !in b[i]
    ensures a == b
  {
    if |a| > 1 {
      assert Join(a) == a[0] + ['|'] + Join(a[1..]) && Join(b) == b[0] + ['|'] + Join(b[1..]);
      SplitUnique(a[0], b[0], '|', Join(a[1..]), Join(b[1..]));
      JoinIsInjective(a[1..], b[1..]);
      assert a == [a[0]] + a[1..] && b == [b[0]] + b[1..];
    }
  }

  lemma {:induction false} DecimalDigits(n: nat)
    ensures Decimal(n) != "" && forall i :: 0 <= i < |Decimal(n)| ==> '0' <= Decimal(n)[i] <= '9'
  {
    assert forall d :: 0 <= d < 10 ==> '0' <= "0123456789"[d] <= '9';
    if n >= 10 { DecimalDigits(n / 10); }
  }

  lemma DigitsDiffer(d: nat, e: nat)
    requires d < 10 && e < 10 && "0123456789"[d] == "0123456789"[e]
    ensures d == e
  {
    assert "0123456789"[d] as int == '0' as int + d by { DigitValue(d); }
    assert "0123456789"[e] as int == '0' as int + e by { DigitValue(e); }
  }

  lemma DigitValue(d: nat)
    requires d < 10
    ensures "0123456789"[d] as int == '0' as int + d
  {
    assert d == 0 || d == 1 || d == 2 || d == 3 || d == 4 || d == 5 || d == 6 || d == 7 || d == 8 || d == 9;
  }

  lemma {:induction false} DecimalIsInjective(n: nat, m: nat)
    requires Decimal(n) == Decimal(m)
    ensures n == m
  {
    DecimalDigits(n / 10);
    DecimalDigits(m / 10);
    if n < 10 && m < 10 {
      DigitsDiffer(n, m);
    } else if n >= 10 && m >= 10 {
      var s := Decimal(n);
      assert s[..|s| - 1] == Decimal(n / 10) && s[..|s| - 1] == Decimal(m / 10);
      DecimalIsInjective(n / 10, m / 10);
      DigitsDiffer(n % 10, m % 10);
    }
  }

  lemma FieldsAreFree(it: Item)
    requires Clean(it)
    ensures forall i :: 0 <= i < 9 ==> '|' !in Fields(it)[i]
    ensures '\n' !in Fields(it)[8]
  {
    DecimalDigits(it.qos);
  }

  lemma FieldsAreInjective(x: Item, y: Item)
    requires Fields(x) == Fields(y)
    ensures x == y
  {
    assert Fields(x)[0] == Fields(y)[0] && Fields(x)[1] == Fields(y)[1] && Fields(x)[4] == Fields(y)[4];
    assert Fields(x)[7] == Fields(y)[7];
    assert x.direction == y.direction by {
      assert |Fields(x)[2]| == |Fields(y)[2]|;
    }
    assert x.qos == y.qos by {
      assert Fields(x)[3] == Fields(y)[3];
      DecimalIsInjective(x.qos, y.qos);
    }
    assert x.mandatory == y.mandatory by {
      assert Fields(x)[5][0] == Fields(y)[5][0];
    }
    assert x.enabled == y.enabled by {
      assert Fields(x)[6][0] == Fields(y)[6][0];
    }
    assert x.criticality == y.criticality by {
      assert |Fields(x)[8]| == |Fields(y)[8]|;
    }
  }

  lemma SerializeIsInjective(x: Item, y: Item)
    requires Clean(x) && Clean(y) && SerializeItem(x) == SerializeItem(y)
    ensures x == y
  {
    FieldsAreFree(x);
    FieldsAreFree(y);
    JoinIsInjective(Fields(x), Fields(y));
    FieldsAreInjective(x, y);
  }

  /** A line ends where its last field ends: the first eight end at a bar, and the ninth is a name without a newline.
      Newlines elsewhere do no harm. */
  lemma {:induction false} LineEnds(a: seq<string>, b: seq<string>, r: string, t: string)
    requires |a| == |b| > 0 && Join(a) + ['\n'] + r == Join(b) + ['\n'] + t
    requires forall i :: 0 <= i < |a| ==> '|' !in a[i] && '|' !in b[i]
    requires '\n' !in a[|a| - 1] && '\n' !in b[|b| - 1]
    ensures a == b && r == t
  {
    if |a| == 1 {
      SplitUnique(a[0], b[0], '\n', r, t);
    } else {
      JoinThen(a, r);
      JoinThen(b, t);
      SplitUnique(a[0], b[0], '|', Join(a[1..]) + ['\n'] + r, Join(b[1..]) + ['\n'] + t);
      LineEnds(a[1..], b[1..], r, t);
      assert a == [a[0]] + a[1..] && b == [b[0]] + b[1..];
    }
  }

  lemma JoinThen(a: seq<string>, r: string)
    requires |a| > 1
    ensures Join(a) + ['\n'] + r == a[0] + ['|'] + (Join(a[1..]) + ['\n'] + r)
  {
  }

  lemma {:induction false} LinesAreInjective(a: seq<Item>, b: seq<Item>)
    requires AllClean(a) && AllClean(b) && Lines(a) == Lines(b)
    ensures a == b
  {
    if a != [] && b != [] {
      FieldsAreFree(a[0]);
      FieldsAreFree(b[0]);
      LineEnds(Fields(a[0]), Fields(b[0]), Lines(a[1..]), Lines(b[1..]));
      FieldsAreInjective(a[0], b[0]);
      LinesAreInjective(a[1..], b[1..]);
      assert a == [a[0]] + a[1..] && b == [b[0]] + b[1..];
    }
  }

  lemma CleanInMultiset(a: seq<Item>, b: seq<Item>)
    requires AllClean(a) && multiset(a) == multiset(b)
    ensures AllClean(b)
  {
    forall i | 0 <= i < |b| ensures Clean(b[i]) {
      assert b[i] in multiset(a);
    }
  }

  /** Two catalogues have one digest exactly when they hold the same items, in whatever order. */
  lemma DigestIdentifiesSet(a: seq<Item>, b: seq<Item>)
    requires UniqueRoutes(a) && UniqueRoutes(b) && AllClean(a) && AllClean(b)
    ensures DigestOf(a) == DigestOf(b) <==> multiset(a) == multiset(b)
  {
    SortingOrders(a);
    SortingOrders(b);
    CleanInMultiset(a, SortedByRouteId(a));
    CleanInMultiset(b, SortedByRouteId(b));
    if DigestOf(a) == DigestOf(b) {
      LinesAreInjective(SortedByRouteId(a), SortedByRouteId(b));
    }
    if multiset(a) == multiset(b) {
      IncreasingIsUnique(SortedByRouteId(a), SortedByRouteId(b));
    }
  }

  lemma JoinTwo(x: string, y: string, tail: seq<string>)
    requires tail != []
    ensures Join([x, y] + tail) == x + "|" + (y + "|" + Join(tail))
  {
    assert ([x, y] + tail)[1..] == [y] + tail && ([y] + tail)[1..] == tail;
  }

  /** A bar at the end of one field or at the start of the next is the same text: whatever a, b and c are, an item with
      the route id a|b and the topic c is written like one with the route id a and the topic b|c. The catalogue's own
      validation does not exclude such fields. */
  lemma BarsCollide(it: Item, a: string, b: string, c: string)
    ensures SerializeItem(it.(routeId := a + "|" + b, topic := c)) == SerializeItem(it.(routeId := a,
        topic := b + "|" + c))
    ensures it.(routeId := a + "|" + b, topic := c) != it.(routeId := a, topic := b + "|" + c)
  {
    var x, y, tail := it.(routeId := a + "|" + b, topic := c), it.(routeId := a, topic := b + "|" + c), Fields(it)[2..];
    assert Fields(x) == [a + "|" + b, c] + tail && Fields(y) == [a, b + "|" + c] + tail;
    JoinTwo(a + "|" + b, c, tail);
    JoinTwo(a, b + "|" + c, tail);
    BarsRegroup(a, b, c, Join(tail));
    assert |a + "|" + b| > |a|;
  }

  lemma BarsRegroup(a: string, b: string, c: string, rest: string)
    ensures (a + "|" + b) + "|" + (c + "|" + rest) == a + "|" + ((b + "|" + c) + "|" + rest)
  {
    var left, right := (a + "|" + b) + "|" + (c + "|" + rest), a + "|" + ((b + "|" + c) + "|" + rest);
    assert |left| == |right|;
    assert forall i :: 0 <= i < |left| ==> left[i] == right[i];
  }

  /** The same happens further on: a scope that begins like an enabled flag and a bar moves everything from the target
      on by one field. */
  lemma TargetsCollide(it: Item, t: string, m: bool, e: bool, f: bool, s: string)
    ensures var flag := if m then "1" else "0";
      var x := it.(target := t, mandatory := m, enabled := Some(e), scope := EnabledText(Some(f)) + "|" + s);
      var y := it.(target := t + "|" + flag, mandatory := e, enabled := Some(f), scope := s);
      x != y && SerializeItem(x) == SerializeItem(y)
  {
    var flag := if m then "1" else "0";
    var x := it.(target := t, mandatory := m, enabled := Some(e), scope := EnabledText(Some(f)) + "|" + s);
    var y := it.(target := t + "|" + flag, mandatory := e, enabled := Some(f), scope := s);
    var front, c := Fields(it)[..4], CriticalityName(it.criticality);
    var mid := [t, flag, EnabledText(Some(e)), EnabledText(Some(f)), s, c];
    assert Fields(x) == front + [t, flag, EnabledText(Some(e)), EnabledText(Some(f)) + "|" + s, c];
    assert Fields(y) == front + [t + "|" + flag, EnabledText(Some(e)), EnabledText(Some(f)), s, c];
    MergeFields(front + [t, flag, EnabledText(Some(e))], EnabledText(Some(f)), s, [c]);
    MergeFields(front, t, flag, [EnabledText(Some(e)), EnabledText(Some(f)), s, c]);
    assert front + [t, flag, EnabledText(Some(e))] + [EnabledText(Some(f)), s] + [c] == front + mid;
    assert front + [t, flag] + [EnabledText(Some(e)), EnabledText(Some(f)), s, c] == front + mid;
    assert front + [t, flag, EnabledText(Some(e))] + [EnabledText(Some(f)) + "|" + s] + [c] == Fields(x);
    assert front + [t + "|" + flag] + [EnabledText(Some(e)), EnabledText(Some(f)), s, c] == Fields(y);
    assert |t + "|" + flag| > |t|;
  }

  /** Two fields and one field with a bar in it are joined to the same text. */
  lemma {:induction false} MergeFields(front: seq<string>, a: string, b: string, tail: seq<string>)
    ensures Join(front + [a, b] + tail) == Join(front + [a + "|" + b] + tail)
  {
    var two, one := front + [a, b] + tail, front + [a + "|" + b] + tail;
    if front == [] {
      assert two[1..] == [b] + tail;
      if tail == [] {
        assert Join([b]) == b;
      } else {
        assert ([b] + tail)[1..] == tail && one[1..] == tail;
        assert Join([b] + tail) == b + "|" + Join(tail);
      }
    } else {
      MergeFields(front[1..], a, b, tail);
      assert two[1..] == front[1..] + [a, b] + tail && one[1..] == front[1..] + [a + "|" + b] + tail;
    }
  }

  lemma {:induction false} LinesConcat(a: seq<Item>, b: seq<Item>)
    ensures Lines(a + b) == Lines(a) + Lines(b)
  {
    hide SerializeItem;
    if a == [] {
      assert a + b == b;
    } else {
      LinesConcat(a[1..], b);
      assert (a + b)[1..] == a[1..] + b;
    }
  }

  lemma SortedStays(v: seq<Item>)
    requires Increasing(v)
    ensures SortedByRouteId(v) == v
  {
    forall i, j | 0 <= i < j < |v| ensures v[i].routeId != v[j].routeId {
      LessIsIrreflexive(v[i].routeId);
    }
    SortingOrders(v);
    IncreasingIsUnique(SortedByRouteId(v), v);
  }

  /** So a catalogue may change and keep its generation: wherever one of two such items stands, the other may stand. */
  lemma CollidingSetsShareDigest(before: seq<Item>, x: Item, y: Item, after: seq<Item>)
    requires SerializeItem(x) == SerializeItem(y)
    requires Increasing(before + [x] + after) && Increasing(before + [y] + after)
    ensures DigestOf(before + [x] + after) == DigestOf(before + [y] + after)
  {
    SortedStays(before + [x] + after);
    SortedStays(before + [y] + after);
    LinesConcat(before + [x], after);
    LinesConcat(before + [y], after);
    LinesConcat(before, [x]);
    LinesConcat(before, [y]);
    assert [x][1..] == [] && [y][1..] == [];
  }

  // ---- build ----

  datatype Snapshot = Snapshot(owner: string, generation: u64, digest: ContentDigest, complete: bool, items: seq<Item>)

  /** The generation stays while the digest stays; otherwise it is the next one, in 64 bits. */
  function Build(items: seq<Item>, owner: string, generation: u64, digest: ContentDigest): Snapshot
  {
    var d := DigestOf(items);
    Snapshot(owner, if generation > 0 && d == digest then generation else (generation + 1) % 0x1_0000_0000_0000_0000,
             d, true, SortedByRouteId(items))
  }

  /** A positive generation is used again exactly when the set of items has not changed. */
  lemma GenerationFollowsContent(items: seq<Item>, previous: seq<Item>, owner: string, generation: u64)
    requires generation > 0
    requires UniqueRoutes(items) && UniqueRoutes(previous) && AllClean(items) && AllClean(previous)
    ensures Build(items, owner, generation, DigestOf(previous)).generation == generation <==>
      multiset(items) == multiset(previous)
    ensures multiset(Build(items, owner, generation, DigestOf(previous)).items) == multiset(items)
    ensures Increasing(Build(items, owner, generation, DigestOf(previous)).items)
  {
    DigestIdentifiesSet(items, previous);
    SortingOrders(items);
  }
}
