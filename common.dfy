// Shared result types and the Python list semantics the compiler relies on.

module Common {

  /** The exceptions the modelled code can raise. */
  datatype Error = ValueError | TypeError | KeyError | IndexError | ZeroDivisionError | AttributeError

  datatype Option<T> = None | Some(value: T)

  datatype Result<T> = Ok(value: T) | Fail(error: Error)
  {
    predicate IsOk() { Ok? }
  }

  /** Python's `range(n)` as a sequence. */
  function Range(n: nat): (r: seq<int>)
    ensures |r| == n
    ensures forall i :: 0 <= i < n ==> r[i] == i
  {
    if n == 0 then [] else Range(n - 1) + [n - 1]
  }

  /** Python's `lst * n`: n copies of the list, empty when n <= 0. */
  function Repeat<T>(s: seq<T>, n: int): (r: seq<T>)
    ensures n <= 0 ==> r == []
    ensures n > 0 ==> |r| >= |s| && r[..|s|] == s
    ensures forall v :: v in r ==> v in s
    decreases if n <= 0 then 0 else n
  {
    if n <= 0 then [] else s + Repeat(s, n - 1)
  }

  /** `len(lst * n) == len(lst) * n` for n >= 0. */
  lemma {:induction false} RepeatSize<T>(s: seq<T>, n: nat)
    ensures |Repeat(s, n)| == |s| * n
  {
    if n > 0 {
      RepeatSize(s, n - 1);
    }
  }

  /** The position Python's indexing `lst[i]` reads, or None for an IndexError. */
  function PyIndex(i: int, n: nat): (r: Option<nat>)
    ensures r.Some? <==> -(n as int) <= i < n
    ensures r.Some? ==> r.value < n && (r.value == i || r.value == i + n)
  {
    if 0 <= i < n then Some(i)
    else if -(n as int) <= i < 0 then Some(i + n)
    else None
  }

  /** Python's `lst.insert(i, v)`: a negative index counts from the end and the
      position is clamped into 0..len. */
  function InsertPos(i: int, n: nat): (r: nat)
    ensures r <= n
    ensures 0 <= i <= n ==> r == i
    ensures i > n ==> r == n
    ensures -(n as int) <= i < 0 ==> r == i + n
    ensures i < -(n as int) ==> r == 0
  {
    if i >= 0 then (if i <= n then i else n)
    else if i + n >= 0 then i + n else 0
  }

  function ListInsert<T>(s: seq<T>, i: int, v: T): (r: seq<T>)
    ensures |r| == |s| + 1
    ensures r[InsertPos(i, |s|)] == v
    ensures r[..InsertPos(i, |s|)] == s[..InsertPos(i, |s|)]
    ensures r[InsertPos(i, |s|) + 1..] == s[InsertPos(i, |s|)..]
  {
    var p := InsertPos(i, |s|);
    s[..p] + [v] + s[p..]
  }

  /** `list.index(x)`: the first position holding x; None where Python raises ValueError. */
  function IndexOf<T(==)>(s: seq<T>, x: T): (r: Option<nat>)
    ensures r.None? <==> x !in s
    ensures r.Some? ==> r.value < |s| && s[r.value] == x && x !in s[..r.value]
  {
    if |s| == 0 then None
    else if s[0] == x then Some(0)
    else
      match IndexOf(s[1..], x)
      case None => None
      case Some(i) =>
        assert s[..i + 1] == [s[0]] + s[1..][..i];
        Some(i + 1)
  }
}
