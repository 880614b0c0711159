/** Bytes, and splitting sequences at a separator and joining them again. */
module Text {
  import opened Schema

  type byte = b: int | 0 <= b < 256
  type Bytes = seq<byte>

  /** Where the first `x` is. */
  function First<T(==)>(s: seq<T>, x: T): (at: Option<nat>)
    ensures at.Some? ==> at.value < |s| && s[at.value] == x && x !in s[..at.value]
    ensures at.None? ==> x !in s
  {
    if |s| == 0 then None
    else if s[0] == x then Some(0)
    else
      match First(s[1..], x)
      case None => None
      case Some(k) =>
        assert s[..k + 1] == [s[0]] + s[1..][..k];
        Some(k + 1)
  }

  lemma FirstIs<T>(s: seq<T>, x: T, k: nat)
    requires k < |s| && s[k] == x && x !in s[..k]
    ensures First(s, x) == Some(k)
  {
    var found := First(s, x).value;
    assert forall i | 0 <= i < k :: s[i] == s[..k][i];
    assert forall i | 0 <= i < found :: s[i] == s[..found][i];
  }

  function Split<T(==)>(s: seq<T>, separator: T): (parts: seq<seq<T>>)
    ensures |parts| >= 1
    ensures forall p :: p in parts ==> separator !in p
    decreases |s|
  {
    match First(s, separator)
    case None => [s]
    case Some(k) => [s[..k]] + Split(s[k + 1..], separator)
  }

  function Join<T>(parts: seq<seq<T>>, separator: T): seq<T> {
    if |parts| == 0 then []
    else if |parts| == 1 then parts[0]
    else parts[0] + [separator] + Join(parts[1..], separator)
  }

  /** Joined parts that hold no separator split into the same parts. */
  lemma {:induction false} SplitJoin<T>(parts: seq<seq<T>>, separator: T)
    requires |parts| >= 1 && forall p :: p in parts ==> separator !in p
    ensures Split(Join(parts, separator), separator) == parts
  {
    assert parts[0] in parts;
    if |parts| == 1 {
      assert First(parts[0], separator).None?;
    } else {
      var s := Join(parts, separator);
      var k := |parts[0]|;
      assert s[..k] == parts[0] && s[k] == separator && s[k + 1..] == Join(parts[1..], separator);
      FirstIs(s, separator, k);
      SplitJoin(parts[1..], separator);
      assert parts == [parts[0]] + parts[1..];
    }
  }
}
