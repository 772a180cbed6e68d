/** JavaScript string values as both components see them: sequences of UTF-16
    code units, optional props, truthiness, and the `Array.prototype.join`,
    `String.prototype.split` operations the components use. */
module JsText {

  /** One UTF-16 code unit, the value `String.prototype.charCodeAt` returns. */
  type CodeUnit = u: int | 0 <= u < 0x1_0000

  type JsString = seq<CodeUnit>

  /** An optional prop: `None` is `undefined`. */
  datatype Option<+T> = None | Some(value: T) {
    /** The destructuring default `{x = d} = props`: used only when `undefined`. */
    function GetOr(default: T): T {
      match this
      case Some(v) => v
      case None => default
    }
  }

  const SPACE: CodeUnit := 32
  const COMMA: CodeUnit := 44
  /** The text a template literal prints for the value `undefined`. */
  const UNDEFINED: JsString := [117, 110, 100, 101, 102, 105, 110, 101, 100]

  /** JavaScript truthiness of an optional string: `undefined` and `""` are falsy. */
  predicate Truthy(s: Option<JsString>) {
    s.Some? && |s.value| > 0
  }

  /** `a || b` on optional strings: the left operand when it is truthy, else the right one. */
  function Or(a: Option<JsString>, b: Option<JsString>): (r: Option<JsString>)
    ensures Truthy(r) <==> Truthy(a) || Truthy(b)
    ensures Truthy(a) ==> r == a
    ensures !Truthy(a) ==> r == b
  {
    if Truthy(a) then a else b
  }

  /** `parts.join(sep)` for a one-unit separator: the parts in order, the
      separator between neighbours; it starts with the first part. */
  function Join(parts: seq<JsString>, sep: CodeUnit): (r: JsString)
    ensures |parts| == 0 ==> r == []
    ensures |parts| > 0 ==> parts[0] <= r
    ensures |parts| > 1 ==> |parts[0]| < |r| && r[|parts[0]|] == sep
    decreases |parts|
  {
    if |parts| == 0 then []
    else if |parts| == 1 then parts[0]
    else parts[0] + [sep] + Join(parts[1..], sep)
  }

  /** `s.split(sep)` for a one-unit separator: the pieces between separators, in
      order; there is always at least one piece and none contains the separator. */
  function Split(s: JsString, sep: CodeUnit): (r: seq<JsString>)
    ensures |r| > 0
    ensures forall i :: 0 <= i < |r| ==> sep !in r[i]
    decreases |s|
  {
    if |s| == 0 then [[]]
    else
      var rest := Split(s[1..], sep);
      if s[0] == sep then [[]] + rest
      else [[s[0]] + rest[0]] + rest[1..]
  }

  /** `s.split('')`: one single-unit string per code unit, in order. */
  function Units(s: JsString): (r: seq<JsString>)
    ensures |r| == |s|
    ensures forall i :: 0 <= i < |s| ==> r[i] == [s[i]]
    decreases |s|
  {
    if |s| == 0 then [] else [[s[0]]] + Units(s[1..])
  }

  /** Joining the pieces of a split restores the string. */
  lemma {:induction false} JoinSplit(s: JsString, sep: CodeUnit)
    ensures Join(Split(s, sep), sep) == s
    decreases |s|
  {
    if |s| > 0 {
      var rest := Split(s[1..], sep);
      JoinSplit(s[1..], sep);
      if s[0] == sep {
        assert Split(s, sep) == [[]] + rest;
        assert ([[]] + rest)[1..] == rest;
      } else {
        var parts := [[s[0]] + rest[0]] + rest[1..];
        assert Split(s, sep) == parts;
        if |rest| > 1 {
          assert parts[1..] == rest[1..];
          assert Join(rest, sep) == rest[0] + [sep] + Join(rest[1..], sep);
        }
      }
    }
  }

  /** A string without the separator splits into itself alone. */
  lemma {:induction false} SplitWithoutSeparator(p: JsString, sep: CodeUnit)
    requires sep !in p
    ensures Split(p, sep) == [p]
    decreases |p|
  {
    if |p| > 0 {
      SplitWithoutSeparator(p[1..], sep);
      assert [p[0]] + p[1..] == p;
    }
  }

  /** The first separator ends the first piece. */
  lemma {:induction false} SplitAtFirstSeparator(a: JsString, b: JsString, sep: CodeUnit)
    requires sep !in a
    ensures Split(a + [sep] + b, sep) == [a] + Split(b, sep)
    decreases |a|
  {
    var s := a + [sep] + b;
    if |a| == 0 {
      assert s[1..] == b;
    } else {
      assert s[1..] == a[1..] + [sep] + b;
      SplitAtFirstSeparator(a[1..], b, sep);
      assert [a[0]] + a[1..] == a;
    }
  }

  /** Splitting a join of separator-free parts gives the parts back. */
  lemma {:induction false} SplitJoin(parts: seq<JsString>, sep: CodeUnit)
    requires |parts| > 0
    requires forall i :: 0 <= i < |parts| ==> sep !in parts[i]
    ensures Split(Join(parts, sep), sep) == parts
    decreases |parts|
  {
    if |parts| == 1 {
      SplitWithoutSeparator(parts[0], sep);
    } else {
      SplitJoin(parts[1..], sep);
      SplitAtFirstSeparator(parts[0], Join(parts[1..], sep), sep);
      assert [parts[0]] + parts[1..] == parts;
    }
  }

  /** `s.split('').join(sep)`: `2n - 1` units for `n >= 1`, the units of `s`
      at even positions and `sep` at odd ones. */
  lemma {:induction false} JoinUnitsLayout(s: JsString, sep: CodeUnit)
    requires |s| > 0
    ensures |Join(Units(s), sep)| == 2 * |s| - 1
    ensures forall i :: 0 <= i < 2 * |s| - 1 ==>
      Join(Units(s), sep)[i] == if i % 2 == 0 then s[i / 2] else sep
    decreases |s|
  {
    if |s| > 1 {
      JoinUnitsLayout(s[1..], sep);
      var tail := Join(Units(s[1..]), sep);
      var t := Join(Units(s), sep);
      assert Units(s)[1..] == Units(s[1..]);
      assert t == [s[0]] + [sep] + tail;
      forall i | 2 <= i < 2 * |s| - 1
        ensures t[i] == if i % 2 == 0 then s[i / 2] else sep
      {
        assert t[i] == tail[i - 2];
        assert (i - 2) % 2 == i % 2;
        assert (i - 2) / 2 + 1 == i / 2;
      }
    }
  }
}
