/** The in-memory watchlist: an insertion-ordered sequence of watched coins,
    keyed by a ticker symbol compared without regard to case. The module-level
    mutable array of the JavaScript module becomes an explicit `Store` value, and each
    operation is a pure function from the current store to its result and the
    next store. `Date.now()` and `new Date().toISOString()` are parameters. */
module Watchlist {
  import opened Wrappers
  import opened Js

  datatype Coin = Coin(
    id: string,
    symbol: string,
    name: string,
    notes: string,
    addedAt: string,
    updatedAt: Option<string>)

  type Store = seq<Coin>

  /** What a store operation hands back: the record (or `null`) and the store
      as it is afterwards. */
  datatype Change = Change(coin: Option<Coin>, store: Store)

  /** The fields a caller may merge into a record; an absent field is not
      written. */
  datatype Updates = Updates(name: Option<string>, notes: Option<string>)

  /** The store a process starts with. */
  const Initial: Store := []

  /** The lookup predicate every operation uses. */
  predicate Matches(c: Coin, symbol: string) {
    EqualsIgnoreCase(c.symbol, symbol)
  }

  predicate NoMatch(w: Store, symbol: string) {
    forall j :: 0 <= j < |w| ==> !Matches(w[j], symbol)
  }

  /** The store invariant: every symbol is upper-case and no two are equal. */
  predicate Valid(w: Store) {
    && (forall i :: 0 <= i < |w| ==> IsUpper(w[i].symbol))
    && (forall i, j :: 0 <= i < j < |w| ==> w[i].symbol != w[j].symbol)
  }

  /** `findIndex` with the case-insensitive comparison: the first matching
      position, or none. */
  function FindIndex(w: Store, symbol: string): (r: Option<nat>)
    ensures r.Some? ==> r.value < |w| && Matches(w[r.value], symbol)
    ensures r.Some? ==> forall j :: 0 <= j < r.value ==> !Matches(w[j], symbol)
    ensures r.None? <==> NoMatch(w, symbol)
  {
    if |w| == 0 then None
    else if Matches(w[0], symbol) then Some(0)
    else match FindIndex(w[1..], symbol)
      case None => None
      case Some(i) => Some(i + 1)
  }

  /** `getWatchlist`: a snapshot of the store. Values are immutable here, so
      the defensive copy the JavaScript module makes is the store itself. */
  function List(w: Store): (r: Store)
    ensures |r| == |w|
    ensures forall i :: 0 <= i < |w| ==> r[i] == w[i]
  {
    w
  }

  /** `findInWatchlist`: the first record whose symbol matches. */
  function Find(w: Store, symbol: string): (r: Option<Coin>)
    ensures r.None? <==> NoMatch(w, symbol)
    ensures r.Some? ==> r.value in w && Matches(r.value, symbol)
    ensures r.Some? ==> r.value == w[FindIndex(w, symbol).value]
  {
    match FindIndex(w, symbol)
    case None => None
    case Some(i) => Some(w[i])
  }

  /** `addToWatchlist`: refuses a symbol already present in any case,
      otherwise appends a fresh record. */
  function Add(w: Store, symbol: string, name: string, notes: Option<string>,
               id: string, now: string): (r: Change)
    ensures r.coin.None? <==> !NoMatch(w, symbol)
    ensures r.coin.None? ==> r.store == w
    ensures r.coin.Some? ==>
      && |r.store| == |w| + 1
      && r.store[..|w|] == w
      && r.store[|w|] == r.coin.value
    ensures r.coin.Some? ==>
      && r.coin.value.id == id
      && r.coin.value.symbol == Upper(symbol)
      && r.coin.value.name == name
      && r.coin.value.notes == (if Truthy(notes) then notes.value else "")
      && r.coin.value.addedAt == now
      && r.coin.value.updatedAt == None
  {
    if FindIndex(w, symbol).Some? then Change(None, w)
    else
      var c := Coin(id, Upper(symbol), name, OrElse(notes, ""), now, None);
      Change(Some(c), w + [c])
  }

  /** The object spread `{...c, ...updates, symbol: c.symbol, updatedAt: now}`. */
  function Merge(c: Coin, updates: Updates, now: string): (m: Coin)
    ensures m.id == c.id && m.symbol == c.symbol && m.addedAt == c.addedAt
    ensures updates.name.Some? ==> m.name == updates.name.value
    ensures updates.name.None? ==> m.name == c.name
    ensures updates.notes.Some? ==> m.notes == updates.notes.value
    ensures updates.notes.None? ==> m.notes == c.notes
    ensures m.updatedAt == Some(now)
  {
    c.(name := updates.name.GetOr(c.name),
       notes := updates.notes.GetOr(c.notes),
       updatedAt := Some(now))
  }

  /** `updateInWatchlist`: merges the supplied fields into the first matching
      record in place and stamps `updatedAt`. */
  function Update(w: Store, symbol: string, updates: Updates, now: string): (r: Change)
    ensures r.coin.None? <==> NoMatch(w, symbol)
    ensures r.coin.None? ==> r.store == w
    ensures r.coin.Some? ==>
      var i := FindIndex(w, symbol).value;
      && |r.store| == |w|
      && r.store[i] == r.coin.value
      && (forall j :: 0 <= j < |w| && j != i ==> r.store[j] == w[j])
      && r.coin.value.id == w[i].id
      && r.coin.value.symbol == w[i].symbol
      && r.coin.value.addedAt == w[i].addedAt
      && r.coin.value.name == (if updates.name.Some? then updates.name.value else w[i].name)
      && r.coin.value.notes == (if updates.notes.Some? then updates.notes.value else w[i].notes)
      && r.coin.value.updatedAt == Some(now)
  {
    match FindIndex(w, symbol)
    case None => Change(None, w)
    case Some(i) =>
      var c := Merge(w[i], updates, now);
      Change(Some(c), w[i := c])
  }

  /** `removeFromWatchlist`: splices out the first matching record and returns
      it. */
  function Remove(w: Store, symbol: string): (r: Change)
    ensures r.coin.None? <==> NoMatch(w, symbol)
    ensures r.coin.None? ==> r.store == w
    ensures r.coin.Some? ==>
      var i := FindIndex(w, symbol).value;
      && r.coin.value == w[i]
      && |r.store| == |w| - 1
      && (forall j :: 0 <= j < i ==> r.store[j] == w[j])
      && (forall j :: i <= j < |r.store| ==> r.store[j] == w[j + 1])
  {
    match FindIndex(w, symbol)
    case None => Change(None, w)
    case Some(i) => Change(Some(w[i]), w[..i] + w[i + 1..])
  }

  /** `clearWatchlist`: drops every record. */
  function Clear(w: Store): (r: Store)
    ensures forall s :: NoMatch(r, s)
  {
    []
  }

  // ---------------------------------------------------------------------------
  // The invariant

  /** In a valid store no two records match each other case-insensitively. */
  lemma ValidUniqueIgnoringCase(w: Store, i: int, j: int)
    requires Valid(w)
    requires 0 <= i < |w| && 0 <= j < |w| && i != j
    ensures !Matches(w[i], w[j].symbol)
  {
  }

  /** In a valid store at most one record matches a given symbol. */
  lemma ValidMatchUnique(w: Store, symbol: string, i: int, j: int)
    requires Valid(w)
    requires 0 <= i < |w| && 0 <= j < |w|
    requires Matches(w[i], symbol) && Matches(w[j], symbol)
    ensures i == j
  {
  }

  lemma InitialValid()
    ensures Valid(Initial)
  {
  }

  lemma AddPreservesValid(w: Store, symbol: string, name: string, notes: Option<string>,
                          id: string, now: string)
    requires Valid(w)
    ensures Valid(Add(w, symbol, name, notes, id, now).store)
  {
    var r := Add(w, symbol, name, notes, id, now);
    if r.coin.Some? {
      var s := r.store;
      var c := r.coin.value;
      assert s == w + [c];
      UpperIsUpper(symbol);
      forall i | 0 <= i < |w|
        ensures w[i].symbol != c.symbol
      {
        if w[i].symbol == c.symbol {
          UpperIdempotent(symbol);
          assert Matches(w[i], symbol);
        }
      }
      assert forall i, j :: 0 <= i < j < |s| ==> s[i].symbol != s[j].symbol by {
        forall i, j | 0 <= i < j < |s|
          ensures s[i].symbol != s[j].symbol
        {
          if j < |w| {
            assert s[i] == w[i] && s[j] == w[j];
          } else {
            assert s[i] == w[i] && s[j] == c;
          }
        }
      }
    }
  }

  lemma UpdatePreservesValid(w: Store, symbol: string, updates: Updates, now: string)
    requires Valid(w)
    ensures Valid(Update(w, symbol, updates, now).store)
  {
  }

  lemma RemovePreservesValid(w: Store, symbol: string)
    requires Valid(w)
    ensures Valid(Remove(w, symbol).store)
  {
  }

  lemma ClearPreservesValid(w: Store)
    ensures Valid(Clear(w))
  {
  }

  // ---------------------------------------------------------------------------
  // Round trips and frame properties

  /** In a valid store, `Find` returns the one record that matches. */
  lemma FindInValid(w: Store, symbol: string, i: int)
    requires Valid(w)
    requires 0 <= i < |w| && Matches(w[i], symbol)
    ensures Find(w, symbol) == Some(w[i])
  {
  }

  /** After a successful add of `symbol`, looking up any case variant of it
      finds the new record, whose symbol is the upper-case form. */
  lemma AddThenFind(w: Store, symbol: string, name: string, notes: Option<string>,
                    id: string, now: string, variant: string)
    requires Add(w, symbol, name, notes, id, now).coin.Some?
    requires EqualsIgnoreCase(variant, symbol)
    ensures Find(Add(w, symbol, name, notes, id, now).store, variant)
         == Add(w, symbol, name, notes, id, now).coin
    ensures Find(Add(w, symbol, name, notes, id, now).store, variant).value.symbol == Upper(symbol)
  {
    var r := Add(w, symbol, name, notes, id, now);
    var s := r.store;
    EqualsIgnoreCaseUpper(symbol, variant);
    assert Matches(s[|w|], variant);
    forall j | 0 <= j < |w|
      ensures !Matches(s[j], variant)
    {
      assert s[j] == w[j];
      assert !Matches(w[j], symbol);
    }
    assert FindIndex(s, variant) == Some(|w|);
  }

  /** A second add of a case variant of a stored symbol is refused and
      changes nothing. */
  lemma AddTwiceRejected(w: Store, symbol: string, name: string, notes: Option<string>,
                         id: string, now: string, variant: string, name2: string,
                         notes2: Option<string>, id2: string, now2: string)
    requires Add(w, symbol, name, notes, id, now).coin.Some?
    requires EqualsIgnoreCase(variant, symbol)
    ensures var s := Add(w, symbol, name, notes, id, now).store;
            Add(s, variant, name2, notes2, id2, now2) == Change(None, s)
  {
  }

  /** After removing `symbol` from a valid store, no case variant of it is
      found any more. */
  lemma RemoveThenFind(w: Store, symbol: string, variant: string)
    requires Valid(w)
    requires EqualsIgnoreCase(variant, symbol)
    ensures Find(Remove(w, symbol).store, variant) == None
  {
  }

  /** After an update, every case variant of the symbol finds the updated
      record, and every other symbol finds what it found before. */
  lemma UpdateThenFind(w: Store, symbol: string, updates: Updates, now: string, other: string)
    requires Valid(w)
    ensures var r := Update(w, symbol, updates, now);
            EqualsIgnoreCase(other, symbol) ==> Find(r.store, other) == r.coin
    ensures var r := Update(w, symbol, updates, now);
            !EqualsIgnoreCase(other, symbol) ==> Find(r.store, other) == Find(w, other)
  {
    var r := Update(w, symbol, updates, now);
    UpdatePreservesValid(w, symbol, updates, now);
    if r.coin.Some? {
      var i := FindIndex(w, symbol).value;
      assert r.store[i].symbol == w[i].symbol;
      if EqualsIgnoreCase(other, symbol) {
        assert Matches(r.store[i], other);
        FindInValid(r.store, other, i);
      } else {
        assert !Matches(r.store[i], other);
        match Find(w, other)
        case None =>
          forall j | 0 <= j < |w|
            ensures !Matches(r.store[j], other)
          {
          }
        case Some(c) =>
          var k := FindIndex(w, other).value;
          assert k != i;
          FindInValid(r.store, other, k);
      }
    }
  }

  /** Removing one symbol leaves the lookups of every other symbol as they
      were. */
  lemma RemoveKeepsOthers(w: Store, symbol: string, other: string)
    requires Valid(w)
    requires !EqualsIgnoreCase(other, symbol)
    ensures Find(Remove(w, symbol).store, other) == Find(w, other)
  {
    var r := Remove(w, symbol);
    RemovePreservesValid(w, symbol);
    if r.coin.Some? {
      var i := FindIndex(w, symbol).value;
      match Find(w, other)
      case None =>
        forall j | 0 <= j < |r.store|
          ensures !Matches(r.store[j], other)
        {
          var k := if j < i then j else j + 1;
          assert r.store[j] == w[k];
        }
      case Some(c) =>
        var k := FindIndex(w, other).value;
        assert k != i;
        var j := if k < i then k else k - 1;
        assert r.store[j] == w[k];
        FindInValid(r.store, other, j);
    }
  }

  /** Appending a record that does not match leaves the first match where it
      was. */
  lemma FindIndexAppend(w: Store, c: Coin, symbol: string)
    requires !Matches(c, symbol)
    ensures FindIndex(w + [c], symbol) == FindIndex(w, symbol)
  {
    var s := w + [c];
    match FindIndex(w, symbol)
    case None =>
      assert forall j :: 0 <= j < |w| ==> s[j] == w[j];
    case Some(k) =>
      assert s[k] == w[k];
      var k' := FindIndex(s, symbol).value;
      assert k' < |w| ==> s[k'] == w[k'];
  }

  /** Adding a symbol leaves the lookups of every other symbol as they were. */
  lemma AddKeepsOthers(w: Store, symbol: string, name: string, notes: Option<string>,
                       id: string, now: string, other: string)
    requires !EqualsIgnoreCase(other, symbol)
    ensures Find(Add(w, symbol, name, notes, id, now).store, other) == Find(w, other)
  {
    var r := Add(w, symbol, name, notes, id, now);
    if r.coin.Some? {
      UpperIdempotent(symbol);
      assert r.store == w + [r.coin.value];
      FindIndexAppend(w, r.coin.value, other);
    }
  }

  /** `getWatchlist` after `clearWatchlist` is empty. */
  lemma ClearThenList(w: Store)
    ensures List(Clear(w)) == []
  {
  }

  /** The snapshot keeps insertion order: two successful adds leave their
      records last, in the order they were added. */
  lemma ListKeepsInsertionOrder(w: Store, s1: string, n1: string, o1: Option<string>,
                                id1: string, t1: string, s2: string, n2: string,
                                o2: Option<string>, id2: string, t2: string)
    requires Add(w, s1, n1, o1, id1, t1).coin.Some?
    requires Add(Add(w, s1, n1, o1, id1, t1).store, s2, n2, o2, id2, t2).coin.Some?
    ensures var r1 := Add(w, s1, n1, o1, id1, t1);
            var r2 := Add(r1.store, s2, n2, o2, id2, t2);
            List(r2.store) == w + [r1.coin.value, r2.coin.value]
  {
  }
}
