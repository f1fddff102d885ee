/** Options, minima, and sequences of sequences laid end to end. */
module Lists {

  datatype Option<+T> = None | Some(value: T)

  function Min(a: nat, b: nat): nat {
    if a <= b then a else b
  }

  function Flatten<T>(parts: seq<seq<T>>): seq<T> {
    if parts == [] then [] else parts[0] + Flatten(parts[1..])
  }

  lemma {:induction false} FlattenAppend<T>(parts: seq<seq<T>>, last: seq<T>)
    ensures Flatten(parts + [last]) == Flatten(parts) + last
  {
    if parts == [] {
      assert parts + [last] == [last];
      assert [last][1..] == [];
    } else {
      assert (parts + [last])[1..] == parts[1..] + [last];
      FlattenAppend(parts[1..], last);
    }
  }

  /** The room n parts of one width take. */
  function Span(width: nat, n: nat): nat {
    if n == 0 then 0 else width + Span(width, n - 1)
  }

  lemma {:induction false} SpanIsProduct(width: nat, n: nat)
    ensures Span(width, n) == width * n
  {
    if n > 0 {
      SpanIsProduct(width, n - 1);
    }
  }

  lemma {:induction false} FlattenLength<T>(parts: seq<seq<T>>, width: nat)
    requires forall p | p in parts :: |p| == width
    ensures |Flatten(parts)| == Span(width, |parts|)
  {
    if parts != [] {
      FlattenLength(parts[1..], width);
    }
  }

  /** Where the part at an index starts and ends. */
  lemma {:induction false} FlattenSplit<T>(parts: seq<seq<T>>, i: nat)
    requires i < |parts|
    ensures Flatten(parts) == Flatten(parts[..i]) + parts[i] + Flatten(parts[i + 1..])
  {
    if i == 0 {
      assert parts[..i] == [];
    } else {
      FlattenSplit(parts[1..], i - 1);
      assert parts[..i][1..] == parts[1..][..i - 1];
      assert parts[1..][i..] == parts[i + 1..];
    }
  }
}
