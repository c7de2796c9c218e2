/** The listing record and facts about sequences of listings keyed by their ids. */
module Listing {
  import opened Wrappers

  /** A listing id. Every falsy id (null, undefined, 0, "") is represented by "". */
  type ListingId = string

  /** The empty id stands for JavaScript's falsy ids. */
  predicate IsFalsyId(id: ListingId) {
    id == ""
  }

  datatype Listing = Listing(
    id: ListingId,
    title: string,
    address: string,
    comuna: string,
    source: string,
    currency: string,
    priceClp: int,
    bedrooms: Option<nat>,
    areaM2: int,
    url: string,
    imageUrl: Option<string>)

  /** The set of ids of the listings in `s` (`new Set(s.map(item => item.id))`). */
  function IdsOf(s: seq<Listing>): (ids: set<ListingId>)
    ensures forall l :: l in s ==> l.id in ids
    ensures forall id :: id in ids ==> exists l :: l in s && l.id == id
  {
    if s == [] then {} else {s[0].id} + IdsOf(s[1..])
  }

  /** No two entries of `s` share an id. */
  predicate UniqueIds(s: seq<Listing>) {
    forall i, j :: 0 <= i < j < |s| ==> s[i].id != s[j].id
  }

  /** Number of entries of `s` whose id is `id`. */
  function Occurrences(s: seq<Listing>, id: ListingId): (n: nat)
    ensures n > 0 <==> id in IdsOf(s)
    ensures n <= |s|
  {
    if s == [] then 0 else (if s[0].id == id then 1 else 0) + Occurrences(s[1..], id)
  }

  lemma IdsOfConcat(a: seq<Listing>, b: seq<Listing>)
    ensures IdsOf(a + b) == IdsOf(a) + IdsOf(b)
  {
    forall id | id in IdsOf(a + b) ensures id in IdsOf(a) + IdsOf(b) {
      var l :| l in a + b && l.id == id;
      assert l in a || l in b;
    }
    forall id | id in IdsOf(a) + IdsOf(b) ensures id in IdsOf(a + b) {
      if id in IdsOf(a) {
        var l :| l in a && l.id == id;
        assert l in a + b;
      } else {
        var l :| l in b && l.id == id;
        assert l in a + b;
      }
    }
  }

  /** A concatenation is duplicate-free iff both parts are and they share no id. */
  lemma UniqueIdsConcat(a: seq<Listing>, b: seq<Listing>)
    ensures UniqueIds(a + b) <==> UniqueIds(a) && UniqueIds(b) && IdsOf(a) !! IdsOf(b)
  {
    var ab := a + b;
    if UniqueIds(ab) {
      assert UniqueIds(a) by {
        forall i, j | 0 <= i < j < |a| ensures a[i].id != a[j].id {
          assert ab[i] == a[i] && ab[j] == a[j];
        }
      }
      assert UniqueIds(b) by {
        forall i, j | 0 <= i < j < |b| ensures b[i].id != b[j].id {
          assert ab[|a| + i] == b[i] && ab[|a| + j] == b[j];
        }
      }
      forall la, lb | la in a && lb in b ensures la.id != lb.id {
        var i :| 0 <= i < |a| && a[i] == la;
        var j :| 0 <= j < |b| && b[j] == lb;
        assert ab[i] == la && ab[|a| + j] == lb;
      }
      forall id | id in IdsOf(a) ensures id !in IdsOf(b) {
        var la :| la in a && la.id == id;
        assert forall lb :: lb in b ==> lb.id != id;
      }
    }
    if UniqueIds(a) && UniqueIds(b) && IdsOf(a) !! IdsOf(b) {
      forall i, j | 0 <= i < j < |ab| ensures ab[i].id != ab[j].id {
        if j < |a| {
          assert ab[i] == a[i] && ab[j] == a[j];
        } else if i >= |a| {
          assert ab[i] == b[i - |a|] && ab[j] == b[j - |a|];
        } else {
          assert ab[i] == a[i] && ab[j] == b[j - |a|];
          assert a[i] in a && b[j - |a|] in b;
        }
      }
    }
  }

  lemma UniqueIdsTail(s: seq<Listing>)
    requires s != [] && UniqueIds(s)
    ensures UniqueIds(s[1..])
  {
    var t := s[1..];
    forall a, b | 0 <= a < b < |t| ensures t[a].id != t[b].id {
      assert t[a] == s[a + 1] && t[b] == s[b + 1];
    }
  }

  /** The head/tail form of `UniqueIds`. */
  lemma UniqueIdsCons(s: seq<Listing>)
    requires s != []
    ensures UniqueIds(s) <==> s[0].id !in IdsOf(s[1..]) && UniqueIds(s[1..])
  {
    assert s == [s[0]] + s[1..];
    UniqueIdsConcat([s[0]], s[1..]);
    assert IdsOf([s[0]]) == {s[0].id} by { assert [s[0]][1..] == []; }
    assert UniqueIds([s[0]]);
  }

  /** In a duplicate-free sequence an id occurs exactly once if present, else never. */
  lemma {:induction false} OccurrencesOfUnique(s: seq<Listing>, id: ListingId)
    requires UniqueIds(s)
    ensures Occurrences(s, id) == if id in IdsOf(s) then 1 else 0
  {
    if s != [] {
      UniqueIdsCons(s);
      OccurrencesOfUnique(s[1..], id);
    }
  }
}
