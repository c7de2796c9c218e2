/**
 * The buffer manager of the `useListings` hook: a displayed window of at most
 * `BatchSize` listings, a reserve pool, and the loading/error/initialized flags.
 * The network fetch is an abstract outcome; the hook's fetch becomes a
 * `StartFetch` step followed later by a `CompleteFetch` step, and the
 * auto-refill effect becomes the explicit step `AutoRefill`.
 */
module UseListings {
  import opened Wrappers
  import opened Listing

  const BatchSize: nat := 5

  const DefaultFetchError: string := "No pudimos obtener los listados."

  function Min(a: int, b: int): int {
    if a <= b then a else b
  }

  // ---------------------------------------------------------------------
  // Slicing into a batch and a remainder (`slice(0, BATCH_SIZE)`, `slice(BATCH_SIZE)`)
  // ---------------------------------------------------------------------

  /** Splits `data` into the next displayed batch and the rest, in order. */
  function SplitBatch(data: seq<Listing>): (r: (seq<Listing>, seq<Listing>))
    ensures |r.0| == Min(|data|, BatchSize)
    ensures |r.1| == if |data| <= BatchSize then 0 else |data| - BatchSize
    ensures r.0 + r.1 == data
  {
    var k := Min(|data|, BatchSize);
    (data[..k], data[k..])
  }

  /** A duplicate-free payload splits into two duplicate-free parts that share no id. */
  lemma SplitBatchKeepsIdsApart(data: seq<Listing>)
    requires UniqueIds(data)
    ensures UniqueIds(SplitBatch(data).0) && UniqueIds(SplitBatch(data).1)
    ensures IdsOf(SplitBatch(data).0) !! IdsOf(SplitBatch(data).1)
  {
    var r := SplitBatch(data);
    UniqueIdsConcat(r.0, r.1);
  }

  // ---------------------------------------------------------------------
  // Filtering an id out of the window (`filter(item => item.id !== id)`)
  // ---------------------------------------------------------------------

  /** `r` is `s` with some entries left out, the rest in their original order. */
  predicate IsSubsequence<T(==)>(r: seq<T>, s: seq<T>)
    decreases |s|
  {
    if r == [] then true
    else if s == [] then false
    else (r[0] == s[0] && IsSubsequence(r[1..], s[1..])) || IsSubsequence(r, s[1..])
  }

  /** The entries of `s` whose id differs from `id`. */
  function RemoveId(s: seq<Listing>, id: ListingId): (r: seq<Listing>)
    ensures |r| <= |s|
  {
    if s == [] then []
    else (if s[0].id != id then [s[0]] else []) + RemoveId(s[1..], id)
  }

  /** Filtering keeps the relative order of what it keeps. */
  lemma {:induction false} RemoveIdIsSubsequence(s: seq<Listing>, id: ListingId)
    ensures IsSubsequence(RemoveId(s, id), s)
  {
    if s != [] {
      RemoveIdIsSubsequence(s[1..], id);
      var rest := RemoveId(s[1..], id);
      if s[0].id != id {
        assert RemoveId(s, id) == [s[0]] + rest;
        assert ([s[0]] + rest)[1..] == rest;
      } else {
        assert RemoveId(s, id) == rest;
      }
    }
  }

  /** Filtering drops every copy of a matching entry and keeps every copy of the others. */
  lemma {:induction false} RemoveIdCounts(s: seq<Listing>, id: ListingId)
    ensures forall l :: multiset(RemoveId(s, id))[l] == if l.id == id then 0 else multiset(s)[l]
  {
    if s != [] {
      RemoveIdCounts(s[1..], id);
      assert s == [s[0]] + s[1..];
      assert multiset(s) == multiset([s[0]]) + multiset(s[1..]);
      var rest := RemoveId(s[1..], id);
      assert RemoveId(s, id) == (if s[0].id != id then [s[0]] else []) + rest;
    }
  }

  /** Exactly the entries with a different id survive the filter. */
  lemma RemoveIdMembers(s: seq<Listing>, id: ListingId)
    ensures forall l :: l in RemoveId(s, id) <==> l in s && l.id != id
  {
    RemoveIdCounts(s, id);
    forall l ensures l in RemoveId(s, id) <==> l in s && l.id != id {
      assert l in RemoveId(s, id) <==> multiset(RemoveId(s, id))[l] > 0;
      assert l in s <==> multiset(s)[l] > 0;
    }
  }

  /** Removing an id nothing carries changes nothing. */
  lemma {:induction false} RemoveAbsentId(s: seq<Listing>, id: ListingId)
    requires id !in IdsOf(s)
    ensures RemoveId(s, id) == s
  {
    if s != [] {
      assert IdsOf(s) == {s[0].id} + IdsOf(s[1..]);
      RemoveAbsentId(s[1..], id);
      assert s == [s[0]] + s[1..];
    }
  }

  /** In a duplicate-free window, removing the id of entry `i` removes exactly that entry. */
  lemma RemoveIdOfUnique(s: seq<Listing>, i: nat)
    requires UniqueIds(s) && i < |s|
    ensures RemoveId(s, s[i].id) == s[..i] + s[i + 1..]
    decreases i
  {
    UniqueIdsCons(s);
    if i == 0 {
      RemoveHeadIdOfUnique(s);
    } else {
      RemoveIdOfUniqueStep(s, i);
    }
  }

  lemma RemoveHeadIdOfUnique(s: seq<Listing>)
    requires s != [] && s[0].id !in IdsOf(s[1..])
    ensures RemoveId(s, s[0].id) == s[1..]
  {
    RemoveAbsentId(s[1..], s[0].id);
  }

  lemma RemoveIdOfUniqueStep(s: seq<Listing>, i: nat)
    requires UniqueIds(s) && 0 < i < |s|
    ensures RemoveId(s, s[i].id) == s[..i] + s[i + 1..]
    decreases i, 0
  {
    var t := s[1..];
    UniqueIdsTail(s);
    assert t[i - 1] == s[i] && s[0].id != s[i].id;
    RemoveIdOfUnique(t, i - 1);
    assert RemoveId(s, s[i].id) == [s[0]] + RemoveId(t, s[i].id);
    assert [s[0]] + t[..i - 1] == s[..i];
    assert t[i..] == s[i + 1..];
  }

  /** Filtering keeps a sequence duplicate-free. */
  lemma {:induction false} RemoveIdKeepsUnique(s: seq<Listing>, id: ListingId)
    requires UniqueIds(s)
    ensures UniqueIds(RemoveId(s, id))
  {
    if s != [] {
      UniqueIdsCons(s);
      RemoveIdKeepsUnique(s[1..], id);
      var rest := RemoveId(s[1..], id);
      if s[0].id != id {
        RemoveIdMembers(s[1..], id);
        assert s[0].id !in IdsOf(rest);
        assert RemoveId(s, id) == [s[0]] + rest;
        UniqueIdsCons([s[0]] + rest);
        assert ([s[0]] + rest)[1..] == rest;
      }
    }
  }

  /** The window after `consumeListing(id)`: a falsy id is a no-op. */
  function Consumed(displayed: seq<Listing>, id: ListingId): (r: seq<Listing>)
    ensures IsFalsyId(id) ==> r == displayed
    ensures !IsFalsyId(id) ==> id !in IdsOf(r) && IdsOf(r) == IdsOf(displayed) - {id}
    ensures |r| <= |displayed|
  {
    if IsFalsyId(id) then displayed
    else
      RemoveIdMembers(displayed, id);
      RemoveId(displayed, id)
  }

  /** Consuming keeps the window's relative order and never shares ids with the pool anew. */
  lemma ConsumedKeepsOrderAndIds(displayed: seq<Listing>, pool: seq<Listing>, id: ListingId)
    ensures IsSubsequence(Consumed(displayed, id), displayed)
    ensures UniqueIds(displayed + pool) ==> UniqueIds(Consumed(displayed, id) + pool)
  {
    UniqueIdsConcat(displayed, pool);
    UniqueIdsConcat(Consumed(displayed, id), pool);
    if IsFalsyId(id) {
      SubsequenceOfItself(displayed);
    } else {
      RemoveIdIsSubsequence(displayed, id);
      if UniqueIds(displayed + pool) {
        RemoveIdKeepsUnique(displayed, id);
      }
    }
  }

  /** Consuming the id of a window entry removes exactly that entry when ids are apart. */
  lemma ConsumeRemovesExactlyOne(displayed: seq<Listing>, pool: seq<Listing>, i: nat)
    requires UniqueIds(displayed + pool) && i < |displayed| && !IsFalsyId(displayed[i].id)
    ensures Consumed(displayed, displayed[i].id) == displayed[..i] + displayed[i + 1..]
  {
    UniqueIdsConcat(displayed, pool);
    RemoveIdOfUnique(displayed, i);
  }

  lemma {:induction false} SubsequenceOfItself<T>(s: seq<T>)
    ensures IsSubsequence(s, s)
  {
    if s != [] {
      SubsequenceOfItself(s[1..]);
    }
  }

  // ---------------------------------------------------------------------
  // Interpreting the outcome of the network request
  // ---------------------------------------------------------------------

  /** The parsed JSON body: a payload whose `data` field may be missing, or a body that fails to parse. */
  datatype Body = Payload(data: Option<seq<Listing>>) | Unparsable(reason: string)

  datatype Response = Response(status: nat, body: Body)

  /** What the request yields: a response, or a transport failure (a rejected `fetch`). */
  datatype FetchOutcome = Received(response: Response) | TransportFailure(reason: string)

  /** `response.ok`. */
  predicate IsOkStatus(status: nat) {
    200 <= status <= 299
  }

  function DigitChar(d: nat): (c: char)
    requires d < 10
    ensures '0' <= c <= '9' && DigitValue(c) == d
  {
    "0123456789"[d]
  }

  /** The value of one decimal digit character. */
  function DigitValue(c: char): nat
    requires '0' <= c <= '9'
  {
    (c as int - '0' as int) as nat
  }

  /** The number a string of decimal digits denotes, read left to right. */
  function DigitsValue(s: string): nat
    requires forall i :: 0 <= i < |s| ==> '0' <= s[i] <= '9'
  {
    if s == [] then 0 else 10 * DigitsValue(s[..|s| - 1]) + DigitValue(s[|s| - 1])
  }

  /** The decimal rendering of a status code in a template string, without leading zeros. */
  function DecimalString(n: nat): (r: string)
    ensures r != []
    ensures forall i :: 0 <= i < |r| ==> '0' <= r[i] <= '9'
    ensures DigitsValue(r) == n
    ensures n > 0 ==> r[0] != '0'
  {
    if n < 10 then [DigitChar(n)]
    else
      var r := DecimalString(n / 10) + [DigitChar(n % 10)];
      assert r[..|r| - 1] == DecimalString(n / 10);
      r
  }

  /** `err.message || "No pudimos obtener los listados."`. */
  function ErrorText(message: string): (r: string)
    ensures r != ""
    ensures message != "" ==> r == message
  {
    if message != "" then message else DefaultFetchError
  }

  /** The data a completed fetch delivers, or the message it stores as `error`. */
  function FetchResult(outcome: FetchOutcome): (r: Result<seq<Listing>, string>)
    ensures r.Ok? <==>
      outcome.Received? && IsOkStatus(outcome.response.status) && outcome.response.body.Payload?
    ensures r.Ok? && outcome.response.body.data.Some? ==> r.value == outcome.response.body.data.value
    ensures r.Ok? && outcome.response.body.data.None? ==> r.value == []
    ensures r.Err? ==> r.error != ""
    ensures outcome.Received? && !IsOkStatus(outcome.response.status) ==>
      r == Err("API error: " + DecimalString(outcome.response.status))
  {
    match outcome
    case TransportFailure(reason) => Err(ErrorText(reason))
    case Received(Response(status, body)) =>
      if !IsOkStatus(status) then Err(ErrorText("API error: " + DecimalString(status)))
      else match body
        case Unparsable(reason) => Err(ErrorText(reason))
        case Payload(data) => Ok(if data.Some? then data.value else [])
  }

  // ---------------------------------------------------------------------
  // The hook's state
  // ---------------------------------------------------------------------

  class ListingBuffer {
    var displayed: seq<Listing>
    var pool: seq<Listing>
    var loading: bool
    var error: Option<string>
    var initialized: bool

    /** The window never holds more than one batch. */
    ghost predicate Valid()
      reads this
    {
      |displayed| <= BatchSize
    }

    /** No listing id is in the window twice, in the pool twice, or in both. */
    ghost predicate IdsApart()
      reads this
    {
      UniqueIds(displayed + pool)
    }

    /** The `useState` initial values. */
    constructor ()
      ensures Valid() && IdsApart()
      ensures displayed == [] && pool == [] && loading && error == None && !initialized
    {
      displayed := [];
      pool := [];
      loading := true;
      error := None;
      initialized := false;
    }

    /** `fetchListings` up to its first await: the request is issued and `loading` is raised. */
    method StartFetch()
      requires Valid()
      modifies this
      ensures Valid()
      ensures loading
      ensures displayed == old(displayed) && pool == old(pool)
      ensures error == old(error) && initialized == old(initialized)
    {
      loading := true;
    }

    /** The continuation of `fetchListings` once the request has an outcome. */
    method CompleteFetch(outcome: FetchOutcome)
      requires Valid()
      modifies this
      ensures Valid()
      ensures !loading
      ensures FetchResult(outcome).Ok? ==>
        var data := FetchResult(outcome).value;
        && displayed == SplitBatch(data).0 && pool == SplitBatch(data).1
        && initialized && error == None
        && (UniqueIds(data) ==> IdsApart())
      ensures FetchResult(outcome).Err? ==>
        && error == Some(FetchResult(outcome).error)
        && displayed == old(displayed) && pool == old(pool) && initialized == old(initialized)
        && (old(IdsApart()) ==> IdsApart())
    {
      var result := FetchResult(outcome);
      if result.Ok? {
        var batch := SplitBatch(result.value);
        displayed, pool := batch.0, batch.1;
        initialized := true;
        error := None;
      } else {
        error := Some(result.error);
      }
      loading := false;
    }

    /** `loadMoreFromPool`: the next batch from the pool, or a new fetch when the pool is empty. */
    method LoadMoreFromPool() returns (fetchStarted: bool)
      requires Valid()
      modifies this
      ensures Valid()
      ensures fetchStarted <==> old(pool) == []
      ensures fetchStarted ==>
        && loading && displayed == old(displayed) && pool == old(pool)
        && error == old(error) && initialized == old(initialized)
      ensures !fetchStarted ==>
        && displayed == SplitBatch(old(pool)).0 && pool == SplitBatch(old(pool)).1
        && displayed + pool == old(pool) && displayed != []
        && loading == old(loading) && error == old(error) && initialized == old(initialized)
      ensures old(IdsApart()) ==> IdsApart()
    {
      if pool == [] {
        StartFetch();
        fetchStarted := true;
      } else {
        assert UniqueIds(displayed + pool) ==> UniqueIds(pool) by {
          UniqueIdsConcat(displayed, pool);
        }
        var batch := SplitBatch(pool);
        displayed, pool := batch.0, batch.1;
        fetchStarted := false;
      }
    }

    /** `consumeListing(id)`: drops every entry with that id from the window only. */
    method ConsumeListing(id: ListingId)
      requires Valid()
      modifies this
      ensures Valid()
      ensures displayed == Consumed(old(displayed), id)
      ensures pool == old(pool) && loading == old(loading)
      ensures error == old(error) && initialized == old(initialized)
      ensures old(IdsApart()) ==> IdsApart()
    {
      ConsumedKeepsOrderAndIds(displayed, pool, id);
      if !IsFalsyId(id) {
        displayed := RemoveId(displayed, id);
      }
    }

    /** The auto-refill effect: refills only once initialized, not loading and with an empty window. */
    method AutoRefill() returns (fired: bool, fetchStarted: bool)
      requires Valid()
      modifies this
      ensures Valid()
      ensures fired <==> old(initialized) && !old(loading) && old(displayed) == []
      ensures !fired ==> !fetchStarted && unchanged(this)
      ensures fired ==> (fetchStarted <==> old(pool) == [])
      ensures fired && fetchStarted ==> loading && displayed == [] && pool == []
      ensures fired && !fetchStarted ==>
        && displayed == SplitBatch(old(pool)).0 && pool == SplitBatch(old(pool)).1
        && displayed != [] && loading == old(loading)
      ensures error == old(error) && initialized == old(initialized)
      ensures old(IdsApart()) ==> IdsApart()
    {
      fired := initialized && !loading && |displayed| == 0;
      fetchStarted := false;
      if fired {
        fetchStarted := LoadMoreFromPool();
      }
    }
  }
}
