/** Kafka headers as a trace-context carrier (internal/kafka/carrier.go): a slice over a shared backing array. */
module Carrier {

  datatype Header = Header(key: string, value: string)

  function Without(s: seq<Header>, key: string): seq<Header> {
    if s == [] then []
    else Without(s[..|s| - 1], key) + if s[|s| - 1].key != key then [s[|s| - 1]] else []
  }

  function Replaced(s: seq<Header>, key: string, value: string): seq<Header> {
    Without(s, key) + [Header(key, value)]
  }

  function Lookup(s: seq<Header>, key: string): string {
    if s == [] then "" else if s[0].key == key then s[0].value else Lookup(s[1..], key)
  }

  /** The filtering loop: the kept headers are moved down over the array they are read from. */
  method FilterInPlace(a: array<Header>, n: nat, key: string) returns (kept: nat)
    requires n <= a.Length
    modifies a
    ensures kept <= n && a[..kept] == Without(old(a[..n]), key)
  {
    ghost var before := a[..n];
    kept := 0;
    for i := 0 to n
      invariant kept <= i
      invariant a[..kept] == Without(before[..i], key)
      invariant forall k :: i <= k < n ==> a[k] == before[k]
    {
      var h := a[i];
      assert before[..i + 1][..i] == before[..i];
      if h.key != key {
        a[kept] := h;
        kept := kept + 1;
        assert a[..kept] == a[..kept - 1] + [h];
      }
    }
    assert before[..n] == before;
  }

  /** The copy `append` makes when the array is full. */
  method Grow(a: array<Header>, h: Header) returns (b: array<Header>)
    ensures fresh(b) && b.Length > a.Length && b[..a.Length] == a[..] && b[a.Length] == h
  {
    b := new Header[2 * a.Length + 1](_ => h);
    for j := 0 to a.Length
      invariant b[..j] == a[..j] && b[a.Length] == h
    {
      b[j] := a[j];
    }
  }

  class HeaderCarrier {
    var data: array<Header>
    var len: nat

    ghost predicate Valid()
      reads this
    {
      len <= data.Length
    }

    ghost function Contents(): seq<Header>
      requires Valid()
      reads this, data
    {
      data[..len]
    }

    constructor (data: array<Header>, len: nat)
      requires len <= data.Length
      ensures Valid() && this.data == data && this.len == len
    {
      this.data, this.len := data, len;
    }

    /** The first header with the key, or the empty string. */
    method Get(key: string) returns (value: string)
      requires Valid()
      ensures value == Lookup(Contents(), key)
      ensures (forall k :: 0 <= k < len ==> data[k].key != key) ==> value == ""
      ensures forall k :: 0 <= k < len && data[k].key == key && (forall j :: 0 <= j < k ==> data[j].key != key) ==>
                value == data[k].value
    {
      var i := 0;
      while i < len
        invariant 0 <= i <= len
        invariant Lookup(Contents(), key) == Lookup(Contents()[i..], key)
        invariant forall j :: 0 <= j < i ==> data[j].key != key
      {
        if data[i].key == key {
          return data[i].value;
        }
        assert Contents()[i..][1..] == Contents()[i + 1..];
        i := i + 1;
      }
      return "";
    }

    /**
     Set filters in place over its own backing array: the write index never overtakes the read index, so the
     result is the old headers without the key, in order, and then the new one. The array is replaced only
     when the filtered headers fill it.
     */
    method Set(key: string, value: string)
      requires Valid()
      modifies this, data
      ensures Valid() && (data == old(data) || fresh(data))
      ensures Contents() == Replaced(old(Contents()), key, value)
      ensures len >= 1 && data[len - 1] == Header(key, value)
    {
      var kept := FilterInPlace(data, len, key);
      if kept < data.Length {
        data[kept] := Header(key, value);
      } else {
        data := Grow(data, Header(key, value));
      }
      len := kept + 1;
      assert data[..len] == data[..kept] + [Header(key, value)];
    }

    /** The keys in header order. */
    method Keys() returns (keys: seq<string>)
      requires Valid()
      ensures keys == KeysOf(Contents())
      ensures |keys| == len && forall k :: 0 <= k < len ==> keys[k] == data[k].key
    {
      keys := [];
      for i := 0 to len
        invariant keys == KeysOf(Contents()[..i])
      {
        keys := keys + [data[i].key];
      }
      assert Contents()[..len] == Contents();
    }
  }

  function KeysOf(s: seq<Header>): seq<string> {
    seq(|s|, i requires 0 <= i < |s| => s[i].key)
  }

  predicate Distinct(keys: seq<string>) {
    forall i, j :: 0 <= i < j < |keys| ==> keys[i] != keys[j]
  }

  // ----- a carrier is a map -----

  lemma {:induction false} LookupAppend(s: seq<Header>, h: Header, key: string)
    ensures Lookup(s + [h], key) ==
            if key in KeysOf(s) then Lookup(s, key) else if h.key == key then h.value else ""
  {
    if s == [] {
      assert s + [h] == [h];
    } else {
      assert (s + [h])[1..] == s[1..] + [h];
      LookupAppend(s[1..], h, key);
      assert KeysOf(s) == [s[0].key] + KeysOf(s[1..]);
    }
  }

  /** The filter header by header: it drops those with the key and keeps the others where they are. */
  lemma {:induction false} WithoutConcat(a: seq<Header>, b: seq<Header>, key: string)
    ensures Without(a + b, key) == Without(a, key) + Without(b, key)
    decreases |b|
  {
    if b == [] {
      assert a + b == a;
    } else {
      var n := |b| - 1;
      var all, last := a + b, if b[n].key != key then [b[n]] else [];
      assert all[..|all| - 1] == a + b[..n] && all[|all| - 1] == b[n];
      assert Without(all, key) == Without(a + b[..n], key) + last;
      assert Without(b, key) == Without(b[..n], key) + last;
      hide Without;
      WithoutConcat(a, b[..n], key);
    }
  }

  lemma WithoutOne(h: Header, key: string)
    ensures Without([h], key) == if h.key == key then [] else [h]
  {
    assert [h][..0] == [];
  }

  lemma {:induction false} WithoutKeys(s: seq<Header>, key: string)
    ensures key !in KeysOf(Without(s, key))
    ensures forall k :: k in KeysOf(Without(s, key)) ==> k in KeysOf(s)
    ensures forall k :: k in KeysOf(s) && k != key ==> k in KeysOf(Without(s, key))
    ensures Distinct(KeysOf(s)) ==> Distinct(KeysOf(Without(s, key)))
  {
    if s != [] {
      var init, last := s[..|s| - 1], s[|s| - 1];
      WithoutKeys(init, key);
      assert KeysOf(s) == KeysOf(init) + [last.key];
      assert KeysOf(Without(s, key)) == KeysOf(Without(init, key)) + if last.key != key then [last.key] else [];
      if Distinct(KeysOf(s)) {
        assert last.key !in KeysOf(init) by {
          forall i | 0 <= i < |init|
            ensures KeysOf(init)[i] != last.key
          {
            assert KeysOf(s)[i] != KeysOf(s)[|s| - 1];
          }
        }
        assert Distinct(KeysOf(init)) by {
          assert forall i :: 0 <= i < |init| ==> KeysOf(init)[i] == KeysOf(s)[i];
        }
      }
    }
  }

  lemma {:induction false} LookupWithout(s: seq<Header>, key: string, other: string)
    requires other != key
    ensures Lookup(Without(s, key), other) == Lookup(s, other)
  {
    if s != [] {
      var init, last := s[..|s| - 1], s[|s| - 1];
      LookupWithout(init, key, other);
      assert s == init + [last];
      assert Without(s, key) == if last.key != key then Without(init, key) + [last] else Without(init, key);
      LookupAppend(init, last, other);
      LookupAppend(Without(init, key), last, other);
      WithoutKeys(init, key);
      if other !in KeysOf(init) {
        LookupMissing(init, other);
      }
    }
  }

  lemma {:induction false} LookupMissing(s: seq<Header>, key: string)
    requires key !in KeysOf(s)
    ensures Lookup(s, key) == ""
  {
    if s != [] {
      assert KeysOf(s) == [s[0].key] + KeysOf(s[1..]);
      LookupMissing(s[1..], key);
    }
  }

  /** After a Set the key has the new value, every other key reads as before, and keys stay distinct. */
  lemma SetThenGet(s: seq<Header>, key: string, value: string, other: string)
    ensures Lookup(Replaced(s, key, value), key) == value
    ensures other != key ==> Lookup(Replaced(s, key, value), other) == Lookup(s, other)
    ensures Distinct(KeysOf(s)) ==> Distinct(KeysOf(Replaced(s, key, value)))
  {
    WithoutKeys(s, key);
    var kept := Without(s, key);
    LookupAppend(kept, Header(key, value), key);
    LookupAppend(kept, Header(key, value), other);
    assert KeysOf(Replaced(s, key, value)) == KeysOf(kept) + [key];
    if other != key {
      LookupWithout(s, key, other);
      if other !in KeysOf(kept) {
        LookupMissing(kept, other);
      }
    }
  }

  /** The headers after a sequence of Sets on an empty carrier, and the map those Sets describe. */
  function Built(sets: seq<Header>): seq<Header> {
    if sets == [] then []
    else Replaced(Built(sets[..|sets| - 1]), sets[|sets| - 1].key, sets[|sets| - 1].value)
  }

  function AsMap(sets: seq<Header>): map<string, string> {
    if sets == [] then map[] else AsMap(sets[..|sets| - 1])[sets[|sets| - 1].key := sets[|sets| - 1].value]
  }

  /** A carrier built by Sets is the map of the last value per key: same keys, once each, and the same reads. */
  lemma {:induction false} CarrierIsMap(sets: seq<Header>, key: string)
    ensures key in KeysOf(Built(sets)) <==> key in AsMap(sets)
    ensures Lookup(Built(sets), key) == if key in AsMap(sets) then AsMap(sets)[key] else ""
    ensures Distinct(KeysOf(Built(sets)))
  {
    if sets != [] {
      var init, last := sets[..|sets| - 1], sets[|sets| - 1];
      CarrierIsMap(init, key);
      SetThenGet(Built(init), last.key, last.value, key);
      WithoutKeys(Built(init), last.key);
      assert KeysOf(Built(sets)) == KeysOf(Without(Built(init), last.key)) + [last.key];
    }
  }
}
