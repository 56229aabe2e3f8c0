/** The part of PHP's value model and string library that the router relies on:
    dynamically typed values with their type tests, truthiness of strings,
    `ucfirst`, `strtolower`, and `explode` / `implode` on a one-character
    delimiter. Strings are sequences of single-byte characters. */
module Php {

  /** An object, known to the router only by its class. */
  datatype Instance = Instance(cls: string)

  /** The closures a router can hold as callbacks: the two defaults that
      BaseRouter builds, and any closure written by a user of the router. */
  datatype Callback =
    | DefaultComponentCallback
    | DefaultControllerCallback
    | UserClosure(name: string)

  /** A PHP value. Arrays are lists; a closure is an object as well. */
  datatype Value =
    | Null
    | Bool(b: bool)
    | Int(i: int)
    | Str(s: string)
    | Arr(items: seq<Value>)
    | Object(obj: Instance)
    | Closure(callback: Callback)

  /** `is_object` */
  predicate IsObject(v: Value) {
    v.Object? || v.Closure?
  }

  /** `is_string` */
  predicate IsString(v: Value) {
    v.Str?
  }

  /** `is_array` */
  predicate IsArray(v: Value) {
    v.Arr?
  }

  /** `is_callable`, for the values the router is handed: closures. */
  predicate IsCallable(v: Value) {
    v.Closure?
  }

  /** The PHP array holding the given strings, in order. */
  function StrList(url: seq<string>): (v: Value)
    ensures v.Arr? && |v.items| == |url|
    ensures forall i :: 0 <= i < |url| ==> v.items[i] == Str(url[i])
  {
    Arr(seq(|url|, i requires 0 <= i < |url| => Str(url[i])))
  }

  /** A string in a boolean context: only "" and "0" are false. */
  predicate Truthy(s: string): (b: bool)
    ensures s == "" || s == "0" ==> !b
    ensures |s| >= 2 ==> b
    ensures |s| == 1 && s[0] != '0' ==> b
  {
    s != "" && s != "0"
  }

  predicate IsLowerAscii(c: char) {
    'a' <= c <= 'z'
  }

  predicate IsUpperAscii(c: char) {
    'A' <= c <= 'Z'
  }

  function UpperChar(c: char): char {
    if IsLowerAscii(c) then (c as int - 32) as char else c
  }

  function LowerChar(c: char): char {
    if IsUpperAscii(c) then (c as int + 32) as char else c
  }

  /** `ucfirst`: the first character upper-cased (ASCII), the rest untouched. */
  function Ucfirst(s: string): (r: string)
    ensures |r| == |s|
    ensures s != [] ==> r[1..] == s[1..] && !IsLowerAscii(r[0])
    ensures s != [] && !IsLowerAscii(s[0]) ==> r == s
    ensures s != [] && IsLowerAscii(s[0]) ==> IsUpperAscii(r[0]) && LowerChar(r[0]) == s[0]
  {
    if s == [] then s else [UpperChar(s[0])] + s[1..]
  }

  /** `strtolower` (ASCII). */
  function StrToLower(s: string): (r: string)
    ensures |r| == |s|
    ensures forall i :: 0 <= i < |s| ==> !IsUpperAscii(r[i])
    ensures forall i :: 0 <= i < |s| && !IsUpperAscii(s[i]) ==> r[i] == s[i]
    ensures forall i :: 0 <= i < |s| && IsUpperAscii(s[i]) ==> IsLowerAscii(r[i]) && UpperChar(r[i]) == s[i]
  {
    if s == [] then [] else [LowerChar(s[0])] + StrToLower(s[1..])
  }

  /** Lower-casing twice is lower-casing once. */
  lemma {:induction false} StrToLowerIdempotent(s: string)
    ensures StrToLower(StrToLower(s)) == StrToLower(s)
  {
    if s != [] {
      StrToLowerIdempotent(s[1..]);
      assert StrToLower(s)[1..] == StrToLower(s[1..]);
    }
  }

  /** `implode` of a non-empty list of pieces with a one-character glue. */
  function Join(sep: char, parts: seq<string>): string
    requires |parts| >= 1
    decreases |parts|
  {
    if |parts| == 1 then parts[0] else parts[0] + [sep] + Join(sep, parts[1..])
  }

  /** `explode` with a one-character delimiter: the pieces between the
      delimiters, in order, including empty ones (ExplodePieces states what
      they are). */
  function Explode(sep: char, s: string): (r: seq<string>)
    ensures |r| >= 1
    ensures s == [] ==> r == [""]
    decreases |s|
  {
    if s == [] then [""]
    else
      var rest := Explode(sep, s[1..]);
      if s[0] == sep then [""] + rest else [[s[0]] + rest[0]] + rest[1..]
  }

  /** The pieces of `explode` hold no delimiter and glue back to the input, and
      the first piece is the input up to its first delimiter. */
  lemma {:induction false} ExplodePieces(sep: char, s: string)
    ensures forall i :: 0 <= i < |Explode(sep, s)| ==> sep !in Explode(sep, s)[i]
    ensures Join(sep, Explode(sep, s)) == s
    ensures var head := Explode(sep, s)[0]; head <= s && (head == s || s[|head|] == sep)
    decreases |s|
  {
    if s != [] {
      ExplodePieces(sep, s[1..]);
      var rest, r := Explode(sep, s[1..]), Explode(sep, s);
      if s[0] == sep {
        assert r == [""] + rest && r[1..] == rest;
      } else {
        assert r == [[s[0]] + rest[0]] + rest[1..];
        assert r[1..] == rest[1..];
        assert Join(sep, r) == [s[0]] + Join(sep, rest);
        assert forall i :: 1 <= i < |r| ==> r[i] == rest[i];
      }
    }
  }

  /** A string without the delimiter explodes to itself. */
  lemma {:induction false} ExplodeWithoutSep(sep: char, s: string)
    requires sep !in s
    ensures Explode(sep, s) == [s]
  {
    if s != [] {
      ExplodeWithoutSep(sep, s[1..]);
      assert s[0] != sep;
      assert [s[0]] + s[1..] == s;
    }
  }

  /** Exploding at a delimiter splits the result at that delimiter. */
  lemma {:induction false} ExplodeConcat(sep: char, x: string, y: string)
    ensures Explode(sep, x + [sep] + y) == Explode(sep, x) + Explode(sep, y)
    decreases |x|
  {
    if x == [] {
      assert x + [sep] + y == [sep] + y;
      assert ([sep] + y)[1..] == y;
    } else {
      var s := x + [sep] + y;
      assert s[0] == x[0] && s[1..] == x[1..] + [sep] + y;
      ExplodeConcat(sep, x[1..], y);
      var tail, head := Explode(sep, s[1..]), Explode(sep, x[1..]);
      assert tail == head + Explode(sep, y);
      if x[0] != sep {
        assert tail[0] == head[0];
        assert tail[1..] == head[1..] + Explode(sep, y);
      }
    }
  }

  /** Exploding what was imploded gives back the pieces, when no piece holds
      the delimiter. */
  lemma {:induction false} ExplodeJoin(sep: char, parts: seq<string>)
    requires |parts| >= 1
    requires forall i :: 0 <= i < |parts| ==> sep !in parts[i]
    ensures Explode(sep, Join(sep, parts)) == parts
    decreases |parts|
  {
    ExplodeWithoutSep(sep, parts[0]);
    if |parts| > 1 {
      ExplodeJoin(sep, parts[1..]);
      ExplodeConcat(sep, parts[0], Join(sep, parts[1..]));
    }
  }

  /** Imploding adds no character but the glue. */
  lemma {:induction false} JoinAvoids(sep: char, parts: seq<string>, c: char)
    requires |parts| >= 1 && c != sep
    requires forall i :: 0 <= i < |parts| ==> c !in parts[i]
    ensures c !in Join(sep, parts)
    decreases |parts|
  {
    if |parts| > 1 {
      JoinAvoids(sep, parts[1..], c);
    }
  }

  /** Every character of a piece occurs in the imploded string. */
  lemma {:induction false} JoinContains(sep: char, parts: seq<string>, i: nat, c: char)
    requires i < |parts| && c in parts[i]
    ensures c in Join(sep, parts)
    decreases |parts|
  {
    if |parts| > 1 && i > 0 {
      JoinContains(sep, parts[1..], i - 1, c);
    }
  }
}
