/** The parts of ECMAScript (ECMA-262) that processFile relies on: the values
    it can be handed, ToBoolean (the `!x` test, section 7.1.2), the `typeof`
    operator (section 13.5.3) and String.prototype.trim (TrimString, section
    22.1.3). Numbers are kept abstract: only whether they are falsy matters. */
module JsValues {

  /** A JavaScript value as far as processFile can tell values apart.
      `Num(isFalsy)` stands for a number; `isFalsy` holds of +0, -0 and NaN.
      `Obj` stands for an object (or function) without a callable `trim`. */
  datatype JsValue =
    | Undefined
    | Null
    | Bool(b: bool)
    | Num(isFalsy: bool)
    | Str(s: string)
    | Obj

  /** ToBoolean (section 7.1.2): `!v` in the source is `!ToBoolean(v)`.
      Exactly undefined, null, false, a zero or NaN, and "" are falsy. */
  predicate ToBoolean(v: JsValue): (b: bool)
    ensures !b <==> v == Undefined || v == Null || v == Bool(false) || v == Num(true) || v == Str("")
  {
    match v
    case Undefined => false
    case Null => false
    case Bool(b) => b
    case Num(isFalsy) => !isFalsy
    case Str(s) => s != ""
    case Obj => true
  }

  /** The `typeof` operator (section 13.5.3); only "string" is ever compared
      against, so objects and functions share "object". */
  function TypeOf(v: JsValue): (r: string)
    ensures r == "string" <==> v.Str?
  {
    match v
    case Undefined => "undefined"
    case Null => "object"
    case Bool(_) => "boolean"
    case Num(_) => "number"
    case Str(_) => "string"
    case Obj => "object"
  }

  /** WhiteSpace (section 12.2) and LineTerminator (section 12.3) code points:
      the characters TrimString removes. The Zs category is listed out. */
  predicate IsWS(c: char) {
    c == '\t' || c == '\U{000B}' || c == '\U{000C}' || c == ' ' || c == '\U{00A0}' || c == '\U{FEFF}'
    || c == '\U{1680}' || ('\U{2000}' <= c <= '\U{200A}') || c == '\U{202F}' || c == '\U{205F}' || c == '\U{3000}'
    || c == '\n' || c == '\r' || c == '\U{2028}' || c == '\U{2029}'
  }

  /** Every character of `s` is whitespace (vacuously true of ""). */
  ghost predicate AllWS(s: string) {
    forall i :: 0 <= i < |s| ==> IsWS(s[i])
  }

  /** Removes the leading whitespace: the result is a suffix of `s`, what was
      dropped is all whitespace, and the result does not start with any. */
  function TrimStart(s: string): (r: string)
    ensures |r| <= |s| && r == s[|s| - |r|..]
    ensures AllWS(s[..|s| - |r|])
    ensures r != "" ==> !IsWS(r[0])
  {
    if s != "" && IsWS(s[0]) then TrimStart(s[1..]) else s
  }

  /** Removes the trailing whitespace: the result is a prefix of `s`, what was
      dropped is all whitespace, and the result does not end with any. */
  function TrimEnd(s: string): (r: string)
    ensures |r| <= |s| && r == s[..|r|]
    ensures AllWS(s[|r|..])
    ensures r != "" ==> !IsWS(r[|r| - 1])
  {
    if s != "" && IsWS(s[|s| - 1]) then TrimEnd(s[..|s| - 1]) else s
  }

  /** `r` sits at offset `k` of `s` with only whitespace around it. */
  ghost predicate Surrounded(s: string, k: int, r: string) {
    0 <= k <= |s| - |r| && r == s[k..k + |r|] && AllWS(s[..k]) && AllWS(s[k + |r|..])
  }

  /** String.prototype.trim: TrimString(s, start+end). The result is ""
      exactly when `s` is all whitespace, so `x.trim() === ""` tests "x is
      empty or whitespace-only"; a non-empty result starts and ends with
      non-whitespace. TrimSurrounded says which slice of `s` it is. */
  function Trim(s: string): (r: string)
    ensures r == "" <==> AllWS(s)
    ensures r != "" ==> !IsWS(r[0]) && !IsWS(r[|r| - 1])
  {
    StripsEmptyIff(s);
    TrimEnd(TrimStart(s))
  }

  /** The slice Trim returns is `s` with only whitespace stripped from
      either end. */
  lemma TrimSurrounded(s: string)
    ensures exists k :: Surrounded(s, k, Trim(s))
  {
    var t := TrimStart(s);
    var r := TrimEnd(t);
    assert Trim(s) == r;
    PrefixOfSuffix(s, t, r);
    SuffixOfSuffix(s, t, |r|);
    assert Surrounded(s, |s| - |t|, r);
  }

  /** Stripping the front leaves "" exactly when `s` is all whitespace:
      the dropped part is whitespace, and a kept first character is not. */
  lemma TrimStartEmptyIff(s: string)
    ensures TrimStart(s) == "" <==> AllWS(s)
  {
    var r := TrimStart(s);
    if r == "" {
      assert s[..|s|] == s;
    } else {
      assert r[0] == s[|s| - |r|];
    }
  }

  /** Stripping the back leaves "" exactly when `s` is all whitespace:
      the dropped part is whitespace, and a kept last character is not. */
  lemma TrimEndEmptyIff(s: string)
    ensures TrimEnd(s) == "" <==> AllWS(s)
  {
    var r := TrimEnd(s);
    if r == "" {
      assert s[0..] == s;
    } else {
      assert r[|r| - 1] == s[|r| - 1];
    }
  }

  /** Stripping both ends leaves "" exactly when `s` is all whitespace. */
  lemma StripsEmptyIff(s: string)
    ensures TrimEnd(TrimStart(s)) == "" <==> AllWS(s)
  {
    var t := TrimStart(s);
    TrimStartEmptyIff(s);
    TrimEndEmptyIff(t);
    if t != "" {
      assert !IsWS(t[0]);
    }
  }

  /** A prefix `r` of a suffix `t` of `s` is the slice of `s` where `t` starts. */
  lemma PrefixOfSuffix(s: string, t: string, r: string)
    requires |t| <= |s| && t == s[|s| - |t|..]
    requires |r| <= |t| && r == t[..|r|]
    ensures r == s[|s| - |t|..|s| - |t| + |r|]
  {
    var k := |s| - |t|;
    forall i | 0 <= i < |r| ensures r[i] == s[k..k + |r|][i] {
      assert r[i] == t[i] == s[k..][i];
    }
  }

  /** Dropping `n` more characters from a suffix `t` of `s` is a suffix of
      `s` too. */
  lemma SuffixOfSuffix(s: string, t: string, n: nat)
    requires |t| <= |s| && t == s[|s| - |t|..] && n <= |t|
    ensures t[n..] == s[|s| - |t| + n..]
  {
    var k := |s| - |t|;
    forall i | 0 <= i < |t| - n ensures t[n..][i] == s[k + n..][i] {
      assert t[n..][i] == t[n + i] == s[k..][n + i];
    }
  }
}
