/**
 The broker's envelope-encrypted secret store and its read cache. A ciphertext is
 its key and payload, readable with that key only; keys are numbers.
 */
module Secrets {
  import opened Prelude

  datatype Sealed<+T> = Sealed(key: nat, payload: T)

  /** Fernet decryption; the wrong key is an error, not a wrong value. */
  function Decrypt<T>(key: nat, s: Sealed<T>): Option<T> {
    if s.key == key then Some(s.payload) else None
  }

  datatype Row = Row(ciphertext: Sealed<string>, wrappedDek: Sealed<nat>, lastFour: string, createdAt: int, rotatedAt: int)

  type Table = map<string, Row>

  /** Outcome of a read: no such row, an undecryptable row, or the value. */
  datatype Read = Missing | Unreadable | Value(value: string)

  function GetSecret(t: Table, kek: nat, name: string): Read {
    if name !in t then Missing
    else
      var dek := Decrypt(kek, t[name].wrappedDek);
      if dek.None? then Unreadable
      else
        var v := Decrypt(dek.value, t[name].ciphertext);
        if v.None? then Unreadable else Value(v.value)
  }

  function LastFour(v: string): string {
    if |v| <= 4 then v else v[|v| - 4..]
  }

  function SetRow(t: Table, kek: nat, dek: nat, name: string, value: string, now: int): Table {
    t[name := Row(Sealed(dek, value), Sealed(kek, dek), LastFour(value), if name in t then t[name].createdAt else now, now)]
  }

  predicate WrappedUnder(t: Table, kek: nat) {
    forall n | n in t :: t[n].wrappedDek.key == kek
  }

  function Rewrapped(t: Table, kek: nat): Table {
    map n | n in t :: t[n].(wrappedDek := Sealed(kek, t[n].wrappedDek.payload))
  }

  /** A write is read back, under the key it was made with, and disturbs no other name. */
  lemma SetThenGet(t: Table, kek: nat, dek: nat, name: string, value: string, now: int, other: string, key: nat)
    ensures GetSecret(SetRow(t, kek, dek, name, value, now), kek, name) == Value(value)
    ensures key != kek ==> GetSecret(SetRow(t, kek, dek, name, value, now), key, name) == Unreadable
    ensures other != name ==> GetSecret(SetRow(t, kek, dek, name, value, now), key, other) == GetSecret(t, key, other)
  {
  }

  /** Re-wrapping moves every secret from the old key to the new one without touching its ciphertext. */
  lemma RewrapKeepsSecrets(t: Table, oldKek: nat, newKek: nat, name: string)
    requires WrappedUnder(t, oldKek)
    ensures Rewrapped(t, newKek).Keys == t.Keys && WrappedUnder(Rewrapped(t, newKek), newKek)
    ensures GetSecret(Rewrapped(t, newKek), newKek, name) == GetSecret(t, oldKek, name)
    ensures name in t ==> Rewrapped(t, newKek)[name].ciphertext == t[name].ciphertext
    ensures oldKek != newKek && name in t ==> GetSecret(Rewrapped(t, newKek), oldKek, name) == Unreadable
  {
  }

  /** Rotating there and back restores the table. */
  lemma RewrapRoundTrip(t: Table, oldKek: nat, newKek: nat)
    requires WrappedUnder(t, oldKek)
    ensures Rewrapped(Rewrapped(t, newKek), oldKek) == t
  {
    var there := Rewrapped(t, newKek);
    forall n | n in t ensures Rewrapped(there, oldKek)[n] == t[n] {
      assert there[n].wrappedDek.payload == t[n].wrappedDek.payload;
    }
  }

  /** The transaction's own view of the rows, re-wrapped one after another. */
  method RewrapAll(table: Table, names: seq<string>, oldKek: nat, newKek: nat) returns (r: Result<Table, string>)
    requires forall i, j | 0 <= i < j < |names| :: names[i] != names[j]
    requires forall n :: n in names <==> n in table
    ensures r.Ok? <==> WrappedUnder(table, oldKek)
    ensures r.Ok? ==> r.value == Rewrapped(table, newKek)
  {
    var work, i := table, 0;
    while i < |names|
      invariant 0 <= i <= |names|
      invariant work.Keys == table.Keys
      invariant forall k | 0 <= k < i :: table[names[k]].wrappedDek.key == oldKek
      invariant forall k | 0 <= k < i ::
          work[names[k]] == table[names[k]].(wrappedDek := Sealed(newKek, table[names[k]].wrappedDek.payload))
      invariant forall k | i <= k < |names| :: work[names[k]] == table[names[k]]
    {
      var n := names[i];
      assert n in table;
      var dek := Decrypt(oldKek, table[n].wrappedDek);
      if dek.None? {
        return Err("InvalidToken");
      }
      work := work[n := work[n].(wrappedDek := Sealed(newKek, dek.value))];
      i := i + 1;
    }
    assert forall n | n in table :: n in names;
    assert work == Rewrapped(table, newKek);
    return Ok(work);
  }

  datatype Cached = Cached(value: string, expiry: real)

  /** The table and key file at one time. */
  datatype Moment = Moment(at: real, table: Table, kek: nat)

  ghost predicate Held(past: seq<Moment>, name: string, value: string, at: real) {
    exists m | m in past :: m.at == at && GetSecret(m.table, m.kek, name) == Value(value)
  }

  /** The broker process: its table, the key file it reads, and the hot-path cache. */
  class Broker {
    const ttl: real
    var table: Table
    var kekFile: nat
    var cache: map<string, Cached>
    // The store as the broker found it at each of its reads, and the times of the read behind each cached value.
    ghost var past: seq<Moment>
    ghost var fetched: map<string, (real, real)>

    /** Whatever was written since, each cached value is what the store held when its read began. */
    ghost predicate Grounded() reads this {
      forall n | n in cache :: n in fetched && fetched[n].0 <= fetched[n].1 && cache[n].expiry == fetched[n].1 + ttl
        && Held(past, n, cache[n].value, fetched[n].0)
    }

    /** Cached values are the stored ones. */
    ghost predicate Coherent() reads this {
      forall n | n in cache :: GetSecret(table, kekFile, n) == Value(cache[n].value)
    }

    constructor (ttl: real, table: Table, kekFile: nat)
      ensures Coherent() && Grounded() && this.table == table && this.kekFile == kekFile && this.ttl == ttl && cache == map[]
    {
      this.ttl, this.table, this.kekFile, cache := ttl, table, kekFile, map[];
      past, fetched := [], map[];
    }

    method SetSecret(dek: nat, name: string, value: string, now: int)
      modifies this`table, this`cache
      ensures old(Coherent()) ==> Coherent()
      ensures old(Grounded()) ==> Grounded()
      ensures table == SetRow(old(table), kekFile, dek, name, value, now)
      ensures cache == old(cache) - {name}
    {
      var ciphertext, wrapped := Sealed(dek, value), Sealed(kekFile, dek);
      var created := if name in table then table[name].createdAt else now;
      table := table[name := Row(ciphertext, wrapped, LastFour(value), created, now)];
      cache := cache - {name};
    }

    /** The admin delete. */
    method Delete(name: string) returns (existed: bool)
      modifies this`table, this`cache
      ensures old(Coherent()) ==> Coherent()
      ensures old(Grounded()) ==> Grounded()
      ensures existed <==> name in old(table)
      ensures table == old(table) - {name} && cache == old(cache) - {name}
    {
      existed := name in table;
      table := table - {name};
      cache := cache - {name};
    }

    /**
     Re-wraps row by row inside one transaction: a row under some other key aborts
     the whole rotation. `names` is the order in which the rows are fetched.
     */
    method RotateKek(names: seq<string>, oldKek: nat, newKek: nat) returns (r: Result<nat, string>)
      requires forall i, j | 0 <= i < j < |names| :: names[i] != names[j]
      requires forall n :: n in names <==> n in table
      modifies this`table, this`cache
      ensures r.Ok? <==> WrappedUnder(old(table), oldKek)
      ensures r.Ok? ==> table == Rewrapped(old(table), newKek) && cache == map[] && r.value == |old(table)| && Coherent()
      ensures r.Err? ==> table == old(table) && cache == old(cache)
      ensures old(Grounded()) ==> Grounded()
    {
      var work := RewrapAll(table, names, oldKek, newKek);
      if work.Err? {
        return Err(work.error);
      }
      CountNames(names, table);
      table := work.value;
      cache := map[];
      return Ok(|names|);
    }

    /**
     The hot-path read. The clock is read at `t0` to judge a hit and again at `t1`
     to date a fresh entry. Coherence is all a caller needs to get the stored value.
     */
    method GetCached(name: string, t0: real, t1: real) returns (r: Read)
      requires t0 <= t1
      modifies this`cache, this`past, this`fetched
      ensures old(Grounded()) ==> Grounded()
      ensures old(past) <= past && forall m | m in past[|old(past)|..] :: m == Moment(t0, table, kekFile)
      ensures old(Grounded()) && name in old(cache) && old(cache)[name].expiry > t0 ==>
                name in fetched && t0 - fetched[name].1 < ttl && Held(past, name, old(cache)[name].value, fetched[name].0)
      ensures old(Coherent()) ==> Coherent() && r == GetSecret(table, kekFile, name)
      ensures name in old(cache) && old(cache)[name].expiry > t0 ==> r == Value(old(cache)[name].value) && cache == old(cache)
      ensures !(name in old(cache) && old(cache)[name].expiry > t0) ==>
                && r == GetSecret(table, kekFile, name)
                && cache == if r.Value? then old(cache)[name := Cached(r.value, t1 + ttl)] else old(cache)
    {
      if name in cache && cache[name].expiry > t0 {
        return Value(cache[name].value);
      }
      r := GetSecret(table, kekFile, name);
      ghost var now := Moment(t0, table, kekFile);
      past := past + [now];
      forall n | n in cache && n in fetched && Held(old(past), n, cache[n].value, fetched[n].0)
        ensures Held(past, n, cache[n].value, fetched[n].0) {
        var m :| m in old(past) && m.at == fetched[n].0 && GetSecret(m.table, m.kek, n) == Value(cache[n].value);
        assert m in past;
      }
      if r.Value? {
        cache := cache[name := Cached(r.value, t1 + ttl)];
        fetched := fetched[name := (t0, t1)];
        assert now in past;
      }
    }

    /** What other processes do: any change to the table or the key file, unseen by this one. */
    method OutsideWrite(table: Table, kekFile: nat)
      modifies this`table, this`kekFile
      ensures this.table == table && this.kekFile == kekFile
      ensures old(Grounded()) ==> Grounded()
    {
      this.table, this.kekFile := table, kekFile;
    }
  }

  lemma {:induction false} CountNames(names: seq<string>, t: Table)
    requires forall i, j | 0 <= i < j < |names| :: names[i] != names[j]
    requires forall n :: n in names <==> n in t
    ensures |names| == |t|
  {
    if names == [] {
      assert t == map[];
    } else {
      var last := names[|names| - 1];
      var t' := t - {last};
      forall n ensures n in names[..|names| - 1] <==> n in t' {
        assert names == names[..|names| - 1] + [last];
      }
      CountNames(names[..|names| - 1], t');
      assert last in names;
      assert t.Keys == t'.Keys + {last};
      assert |t| == |t.Keys| && |t'| == |t'.Keys|;
    }
  }
}
