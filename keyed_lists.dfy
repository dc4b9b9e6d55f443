/**
 * The list idioms the client code applies to records identified by an `id`
 * string: `filter(x => x.id !== id)`, `find(x => x.id === id)` and
 * `map(x => x.id === id ? f(x) : x)`.
 */
module KeyedLists {
  import opened JsText

  /** `xs.filter(x => key(x) !== id)`. */
  function Without<T>(xs: seq<T>, key: T -> string, id: string): (r: seq<T>)
    ensures |r| <= |xs|
    ensures forall k :: 0 <= k < |r| ==> key(r[k]) != id
    ensures forall x :: x in r ==> x in xs
    ensures forall x :: x in xs && key(x) != id ==> x in r
  {
    if xs == [] then []
    else (if key(xs[0]) != id then [xs[0]] else []) + Without(xs[1..], key, id)
  }

  /** Filtering a concatenation filters each part, so the survivors keep their order. */
  lemma {:induction false} WithoutAppend<T>(a: seq<T>, b: seq<T>, key: T -> string, id: string)
    ensures Without(a + b, key, id) == Without(a, key, id) + Without(b, key, id)
  {
    if a == [] {
      assert a + b == b;
    } else {
      var head := if key(a[0]) != id then [a[0]] else [];
      assert (a + b)[0] == a[0];
      assert (a + b)[1..] == a[1..] + b;
      WithoutAppend(a[1..], b, key, id);
      calc {
        Without(a + b, key, id);
        head + Without(a[1..] + b, key, id);
        head + (Without(a[1..], key, id) + Without(b, key, id));
        { AppendAssoc(head, Without(a[1..], key, id), Without(b, key, id)); }
        (head + Without(a[1..], key, id)) + Without(b, key, id);
      }
    }
  }

  lemma AppendAssoc<T>(x: seq<T>, y: seq<T>, z: seq<T>)
    ensures x + (y + z) == (x + y) + z
  {
  }

  /** A list with no entry under `id` passes the filter unchanged. */
  lemma {:induction false} WithoutAbsent<T>(xs: seq<T>, key: T -> string, id: string)
    requires forall k :: 0 <= k < |xs| ==> key(xs[k]) != id
    ensures Without(xs, key, id) == xs
  {
    if xs != [] {
      WithoutAbsent(xs[1..], key, id);
    }
  }

  /** Filtering twice by the same id is filtering once. */
  lemma WithoutIdempotent<T>(xs: seq<T>, key: T -> string, id: string)
    ensures Without(Without(xs, key, id), key, id) == Without(xs, key, id)
  {
    WithoutAbsent(Without(xs, key, id), key, id);
  }

  /** The number of entries filed under `id`. */
  function CountKey<T>(xs: seq<T>, key: T -> string, id: string): nat {
    if xs == [] then 0
    else (if key(xs[0]) == id then 1 else 0) + CountKey(xs[1..], key, id)
  }

  /** After the filter, nothing is filed under `id`. */
  lemma {:induction false} WithoutCountsZero<T>(xs: seq<T>, key: T -> string, id: string)
    ensures CountKey(Without(xs, key, id), key, id) == 0
  {
    if xs != [] {
      WithoutCountsZero(xs[1..], key, id);
      var head := if key(xs[0]) != id then [xs[0]] else [];
      assert Without(xs, key, id) == head + Without(xs[1..], key, id);
      CountAppend(head, Without(xs[1..], key, id), key, id);
    }
  }

  lemma {:induction false} CountAppend<T>(a: seq<T>, b: seq<T>, key: T -> string, id: string)
    ensures CountKey(a + b, key, id) == CountKey(a, key, id) + CountKey(b, key, id)
  {
    if a == [] {
      assert a + b == b;
    } else {
      assert (a + b)[1..] == a[1..] + b;
      CountAppend(a[1..], b, key, id);
    }
  }

  /** Putting `x` in front of the rest with its id filtered out leaves exactly one entry under that id, first. */
  lemma PrependUnique<T>(x: T, xs: seq<T>, key: T -> string)
    ensures var r := [x] + Without(xs, key, key(x));
            key(r[0]) == key(x) && CountKey(r, key, key(x)) == 1
  {
    WithoutCountsZero(xs, key, key(x));
    CountAppend([x], Without(xs, key, key(x)), key, key(x));
  }

  /** The index `xs.find(x => key(x) === id)` stops at: the first entry under `id`. */
  function FindIndex<T>(xs: seq<T>, key: T -> string, id: string): (r: Option<nat>)
    ensures r.Some? ==> r.value < |xs| && key(xs[r.value]) == id
    ensures r.Some? ==> forall j :: 0 <= j < r.value ==> key(xs[j]) != id
    ensures r.None? <==> forall j :: 0 <= j < |xs| ==> key(xs[j]) != id
  {
    if xs == [] then None
    else if key(xs[0]) == id then Some(0)
    else match FindIndex(xs[1..], key, id)
      case None => None
      case Some(k) => Some(k + 1)
  }

  /** `xs.find(x => key(x) === id)`. */
  function Find<T>(xs: seq<T>, key: T -> string, id: string): (r: Option<T>)
    ensures r.Some? ==> r.value in xs && key(r.value) == id
    ensures r.None? <==> forall j :: 0 <= j < |xs| ==> key(xs[j]) != id
    ensures r.Some? ==> FindIndex(xs, key, id).Some? && r.value == xs[FindIndex(xs, key, id).value]
  {
    match FindIndex(xs, key, id)
    case None => None
    case Some(k) => Some(xs[k])
  }

  /** `xs.map(x => key(x) === id ? f(x) : x)`. */
  function UpdateWhere<T>(xs: seq<T>, key: T -> string, id: string, f: T -> T): (r: seq<T>)
    ensures |r| == |xs|
    ensures forall k :: 0 <= k < |xs| && key(xs[k]) != id ==> r[k] == xs[k]
    ensures forall k :: 0 <= k < |xs| && key(xs[k]) == id ==> r[k] == f(xs[k])
  {
    seq(|xs|, k requires 0 <= k < |xs| => if key(xs[k]) == id then f(xs[k]) else xs[k])
  }

  /** Updating under an id nobody has changes nothing. */
  lemma UpdateAbsent<T>(xs: seq<T>, key: T -> string, id: string, f: T -> T)
    requires forall k :: 0 <= k < |xs| ==> key(xs[k]) != id
    ensures UpdateWhere(xs, key, id, f) == xs
  {
  }
}
