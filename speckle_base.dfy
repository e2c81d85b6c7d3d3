/**
 * Speckle's dynamic object model as the connectors see it: a `Base` object is a
 * bag of named members, and a member holds null, a string, another scalar, a
 * nested `Base`, a list or a dictionary.  Reading a member that is not there
 * gives null; writing a member overwrites it in place or appends it.
 */
module SpeckleBase {
  import opened Wrappers

  /** A scalar member value that is neither a string nor an object (a number, a boolean, a Guid). */
  type Primitive(==, !new)

  datatype Value =
    | Null
    | Text(s: string)
    | Scalar(p: Primitive)
    | Object(b: Base)
    | List(items: seq<Value>)
    | Dict(entries: seq<Member>)

  /** A `Base`: its type tag, its application id and its dynamic members in insertion order. */
  datatype Base = Base(speckleType: string, applicationId: Option<string>, members: seq<Member>)

  datatype Member = Member(key: string, value: Value)

  /** `new Base()` */
  const NewBase: Base := Base("Base", None, [])

  function Keys(ms: seq<Member>): set<string>
  {
    set m | m in ms :: m.key
  }

  /** A member bag is a dictionary: no key occurs twice. */
  predicate DistinctKeys(ms: seq<Member>)
  {
    forall i, j :: 0 <= i < j < |ms| ==> ms[i].key != ms[j].key
  }

  /** The position of the member named `key`, if there is one. */
  function IndexOf(ms: seq<Member>, key: string): (r: Option<nat>)
    ensures r.None? <==> key !in Keys(ms)
    ensures r.Some? ==> r.value < |ms| && ms[r.value].key == key
    ensures r.Some? ==> forall i :: 0 <= i < r.value ==> ms[i].key != key
  {
    if ms == [] then None
    else if ms[0].key == key then Some(0)
    else
      assert Keys(ms) == {ms[0].key} + Keys(ms[1..]) by {
        assert ms == [ms[0]] + ms[1..];
      }
      match IndexOf(ms[1..], key)
      case None => None
      case Some(i) => Some(i + 1)
  }

  /** Two bags whose keys agree position by position find every key at the same place. */
  lemma SameKeysSameIndex(ms: seq<Member>, ns: seq<Member>, key: string)
    requires |ms| == |ns|
    requires forall i :: 0 <= i < |ms| ==> ms[i].key == ns[i].key
    ensures IndexOf(ms, key) == IndexOf(ns, key)
  {
    if ms != [] && ms[0].key != key {
      SameKeysSameIndex(ms[1..], ns[1..], key);
    }
  }

  /** `base[key]`: the member's value, or null when there is no member of that name. */
  function Get(ms: seq<Member>, key: string): (r: Value)
    ensures key !in Keys(ms) ==> r == Null
    ensures key in Keys(ms) ==> exists i :: 0 <= i < |ms| && ms[i].key == key && ms[i].value == r
  {
    match IndexOf(ms, key)
    case None => Null
    case Some(i) => ms[i].value
  }

  /** `base[key] = v`: an existing member is overwritten where it stands, a new one is appended. */
  function Set(ms: seq<Member>, key: string, v: Value): (r: seq<Member>)
    ensures Keys(r) == Keys(ms) + {key}
    ensures Get(r, key) == v
    ensures forall k :: k != key ==> Get(r, k) == Get(ms, k)
    ensures key !in Keys(ms) ==> r == ms + [Member(key, v)]
    ensures key in Keys(ms) ==> |r| == |ms|
  {
    match IndexOf(ms, key)
    case None =>
      AppendFacts(ms, key, v);
      ms + [Member(key, v)]
    case Some(i) =>
      OverwriteFacts(ms, i, key, v);
      ms[i := Member(key, v)]
  }

  /** A bag written to stays a dictionary. */
  lemma SetKeepsDistinct(ms: seq<Member>, key: string, v: Value)
    requires DistinctKeys(ms)
    ensures DistinctKeys(Set(ms, key, v))
  {
    match IndexOf(ms, key)
    case None =>
      var r := ms + [Member(key, v)];
      forall i | 0 <= i < |ms| ensures ms[i].key != key {
        assert ms[i] in ms;
      }
      assert forall i :: 0 <= i < |ms| ==> r[i] == ms[i];
    case Some(i) =>
  }

  lemma AppendFacts(ms: seq<Member>, key: string, v: Value)
    requires key !in Keys(ms)
    ensures var r := ms + [Member(key, v)];
      && Keys(r) == Keys(ms) + {key}
      && IndexOf(r, key) == Some(|ms|)
      && forall k :: k != key ==> IndexOf(r, k) == IndexOf(ms, k)
  {
    var r := ms + [Member(key, v)];
    assert r[..|ms|] == ms;
    assert Keys(r) == Keys(ms) + {key} by {
      assert forall m :: m in r <==> m in ms || m == Member(key, v);
    }
    forall k | k != key ensures IndexOf(r, k) == IndexOf(ms, k) {
      match IndexOf(ms, k)
      case None =>
      case Some(i) =>
        PrefixIndex(r, |ms|, k);
    }
  }

  lemma OverwriteFacts(ms: seq<Member>, i: nat, key: string, v: Value)
    requires i < |ms| && ms[i].key == key
    ensures var r := ms[i := Member(key, v)];
      && Keys(r) == Keys(ms)
      && forall k :: IndexOf(r, k) == IndexOf(ms, k)
  {
    var r := ms[i := Member(key, v)];
    forall k ensures k in Keys(r) <==> k in Keys(ms) {
      if k in Keys(r) {
        var m :| m in r && m.key == k;
        var j :| 0 <= j < |r| && r[j] == m;
        assert ms[j].key == k;
        assert ms[j] in ms;
      }
      if k in Keys(ms) {
        var m :| m in ms && m.key == k;
        var j :| 0 <= j < |ms| && ms[j] == m;
        assert r[j].key == k;
        assert r[j] in r;
      }
    }
    forall k ensures IndexOf(r, k) == IndexOf(ms, k) {
      SameKeysSameIndex(ms, r, k);
    }
  }

  /** Writing a member twice leaves what the second write put there, at the place of the first. */
  lemma SetTwice(ms: seq<Member>, key: string, v: Value, w: Value)
    ensures Set(Set(ms, key, v), key, w) == Set(ms, key, w)
  {
    match IndexOf(ms, key)
    case None =>
      AppendFacts(ms, key, v);
      assert (ms + [Member(key, v)])[|ms| := Member(key, w)] == ms + [Member(key, w)];
    case Some(i) =>
      OverwriteFacts(ms, i, key, v);
      assert ms[i := Member(key, v)][i := Member(key, w)] == ms[i := Member(key, w)];
  }

  /** A key found within the first `n` members is found at the same place in the whole bag. */
  lemma PrefixIndex(ms: seq<Member>, n: nat, key: string)
    requires n <= |ms|
    requires IndexOf(ms[..n], key).Some?
    ensures IndexOf(ms, key) == IndexOf(ms[..n], key)
  {
    var i := IndexOf(ms[..n], key).value;
    assert forall j :: 0 <= j <= i ==> ms[..n][j] == ms[j];
    IndexOfAt(ms, key, i);
  }

  /** The first member of a name is the one found. */
  lemma {:induction false} IndexOfAt(ms: seq<Member>, key: string, i: nat)
    requires i < |ms| && ms[i].key == key
    requires forall j :: 0 <= j < i ==> ms[j].key != key
    ensures IndexOf(ms, key) == Some(i)
  {
    if i > 0 {
      assert forall j :: 0 <= j < i - 1 ==> ms[1..][j] == ms[j + 1];
      IndexOfAt(ms[1..], key, i - 1);
    }
  }

  /** Writes each of `news` in turn with `base[key] = value`, first to last. */
  function SetAll(ms: seq<Member>, news: seq<Member>): seq<Member>
  {
    if news == [] then ms
    else Set(SetAll(ms, news[..|news| - 1]), news[|news| - 1].key, news[|news| - 1].value)
  }

  /** The value the last member named `key` among `news` carries. */
  function Latest(news: seq<Member>, key: string): (r: Option<Value>)
  {
    if news == [] then None
    else if news[|news| - 1].key == key then Some(news[|news| - 1].value)
    else Latest(news[..|news| - 1], key)
  }

  /** After a run of writes, a member holds the value written to it last, or what it held before. */
  lemma {:induction false} GetSetAll(ms: seq<Member>, news: seq<Member>, key: string)
    ensures Get(SetAll(ms, news), key) == match Latest(news, key) case None => Get(ms, key) case Some(v) => v
  {
    if news != [] {
      GetSetAll(ms, news[..|news| - 1], key);
    }
  }

  /** A write that no later write of the same name follows is the one that counts. */
  lemma {:induction false} LatestAt(news: seq<Member>, i: nat)
    requires i < |news|
    requires forall j :: i < j < |news| ==> news[j].key != news[i].key
    ensures Latest(news, news[i].key) == Some(news[i].value)
  {
    if i < |news| - 1 {
      LatestAt(news[..|news| - 1], i);
    }
  }

  /** A name never written has no latest value. */
  lemma {:induction false} LatestAbsent(news: seq<Member>, key: string)
    requires forall j :: 0 <= j < |news| ==> news[j].key != key
    ensures Latest(news, key) == None
  {
    if news != [] {
      LatestAbsent(news[..|news| - 1], key);
    }
  }

  /** Writes of pairwise distinct names into an empty bag simply append. */
  lemma {:induction false} SetAllFresh(news: seq<Member>)
    requires DistinctKeys(news)
    ensures SetAll([], news) == news
  {
    if news != [] {
      var n := |news| - 1;
      assert SetAll([], news[..n]) == news[..n] && news[n].key !in Keys(news[..n]) by {
        DistinctLast(news);
        SetAllFresh(news[..n]);
      }
      AppendFresh(news[..n], news[n]);
      assert news == news[..n] + [news[n]];
    }
  }

  lemma AppendFresh(ms: seq<Member>, m: Member)
    requires m.key !in Keys(ms)
    ensures Set(ms, m.key, m.value) == ms + [m]
  {
  }

  /** In a bag without repeated names, the last name is not among the others, which repeat none either. */
  lemma DistinctLast(xs: seq<Member>)
    requires DistinctKeys(xs) && xs != []
    ensures DistinctKeys(xs[..|xs| - 1]) && xs[|xs| - 1].key !in Keys(xs[..|xs| - 1])
  {
    var init := xs[..|xs| - 1];
    forall m | m in init ensures m.key != xs[|xs| - 1].key {
      var i :| 0 <= i < |init| && init[i] == m;
      assert init[i] == xs[i];
    }
  }

  /** A measure of nesting under which every member is smaller than the object holding it. */
  function Size(v: Value): nat
  {
    match v
    case Object(b) => 1 + MembersSize(b.members)
    case List(items) => 1 + ItemsSize(items)
    case Dict(entries) => 1 + MembersSize(entries)
    case _ => 0
  }

  function MembersSize(ms: seq<Member>): nat
  {
    if ms == [] then 0 else MembersSize(ms[..|ms| - 1]) + 1 + Size(ms[|ms| - 1].value)
  }

  function ItemsSize(vs: seq<Value>): nat
  {
    if vs == [] then 0 else ItemsSize(vs[..|vs| - 1]) + 1 + Size(vs[|vs| - 1])
  }

  lemma {:induction false} MemberSmaller(ms: seq<Member>, i: nat)
    requires i < |ms|
    ensures Size(ms[i].value) < MembersSize(ms)
  {
    if i < |ms| - 1 {
      MemberSmaller(ms[..|ms| - 1], i);
    }
  }

  /** Whatever `base[key]` reads is smaller than the object it is read from. */
  lemma GetSmaller(b: Base, key: string)
    ensures Size(Get(b.members, key)) < Size(Object(b))
  {
    match IndexOf(b.members, key)
    case None =>
    case Some(i) => MemberSmaller(b.members, i);
  }
}
