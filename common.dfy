/** Values and string operations shared by the PHP back end and the page
    component: nullable values, PHP and JavaScript truthiness, ASCII case
    folding and substring tests. */
module Common {

  datatype Option<T> = None | Some(value: T)

  /** PHP's `$a ?? $b`: the left operand unless it is null. */
  function Coalesce<T>(a: Option<T>, b: Option<T>): Option<T>
  {
    if a.Some? then a else b
  }

  /** PHP truthiness of a string: "" and "0" are the falsy strings. */
  predicate TruthyStr(s: string)
  {
    s != "" && s != "0"
  }

  /** PHP truthiness of a nullable string: null is falsy as well. */
  predicate Truthy(s: Option<string>)
  {
    s.Some? && TruthyStr(s.value)
  }

  /** JavaScript truthiness of an optional string: null, undefined and ""
      are falsy; unlike PHP, "0" is truthy. */
  predicate JsTruthy(s: Option<string>)
  {
    s.Some? && s.value != ""
  }

  /** JavaScript's `a || b` on an optional string with a string fallback. */
  function JsOr(a: Option<string>, b: string): (r: string)
    ensures JsTruthy(a) ==> r == a.value
    ensures !JsTruthy(a) ==> r == b
  {
    if JsTruthy(a) then a.value else b
  }

  /** A fallback chain settles after one step: feeding the shown value back
      in shows it again, the value comes from `a` or is the fallback, and a
      non-empty fallback means something is always shown. */
  lemma JsOrSettles(a: Option<string>, b: string)
    ensures JsOr(Some(JsOr(a, b)), b) == JsOr(a, b)
    ensures Some(JsOr(a, b)) == a || JsOr(a, b) == b
    ensures b != "" ==> JsOr(a, b) != ""
  {
  }

  /** ASCII lower-casing of one character, as PHP's `strtolower` and the
      `/i` flag of a non-Unicode PCRE pattern do it. */
  function LowerChar(c: char): char
  {
    if 'A' <= c <= 'Z' then (c as int + 32) as char else c
  }

  function ToLower(s: string): (r: string)
    ensures |r| == |s|
    ensures forall i :: 0 <= i < |s| ==> r[i] == LowerChar(s[i])
    ensures forall i :: 0 <= i < |r| ==> !('A' <= r[i] <= 'Z')
    ensures forall i :: 0 <= i < |s| && !('A' <= s[i] <= 'Z') ==> r[i] == s[i]
  {
    seq(|s|, i requires 0 <= i < |s| => LowerChar(s[i]))
  }

  /** Lower-casing twice is lower-casing once. */
  lemma ToLowerIdempotent(s: string)
    ensures ToLower(ToLower(s)) == ToLower(s)
  {
    var t := ToLower(s);
    assert forall i :: 0 <= i < |t| ==> ToLower(t)[i] == t[i];
  }

  /** A case-insensitive match does not depend on the letter case of the
      subject. */
  lemma MatchesCIIgnoresCase(s: string, ts: seq<string>)
    ensures MatchesCI(ToLower(s), ts) == MatchesCI(s, ts)
  {
    ToLowerIdempotent(s);
  }

  /** PHP's `str_starts_with($s, $p)`. */
  predicate StartsWith(s: string, p: string)
  {
    |p| <= |s| && s[..|p|] == p
  }

  /** `t` occurs in `s` starting at offset `i`. */
  predicate OccursAt(s: string, t: string, i: int)
  {
    0 <= i && i + |t| <= |s| && s[i..i + |t|] == t
  }

  /** PHP's `str_contains($s, $t)`: `t` occurs in `s` at some offset. */
  predicate Contains(s: string, t: string)
  {
    exists i :: 0 <= i <= |s| && OccursAt(s, t, i)
  }

  /** Some token of `ts` occurs in `s`: an unanchored alternation
      `/t1|t2|.../` matched against `s`. */
  predicate ContainsAny(s: string, ts: seq<string>)
  {
    exists j :: 0 <= j < |ts| && Contains(s, ts[j])
  }

  /** Case-insensitive match of a lower-case alternation, as
      `preg_match('/t1|t2/i', $s)` does for the ASCII tokens used here. */
  predicate MatchesCI(s: string, ts: seq<string>)
  {
    ContainsAny(ToLower(s), ts)
  }

  /** Witness lemma: an occurrence at offset `i` makes `t` a substring. */
  lemma ContainsAt(s: string, t: string, i: nat)
    requires i + |t| <= |s| && s[i..i + |t|] == t
    ensures Contains(s, t)
  {
    assert OccursAt(s, t, i);
  }

  /** A substring of a substring is a substring. */
  lemma {:induction false} ContainsTrans(s: string, t: string, u: string)
    requires Contains(s, t) && Contains(t, u)
    ensures Contains(s, u)
  {
    var i :| 0 <= i <= |s| && OccursAt(s, t, i);
    var j :| 0 <= j <= |t| && OccursAt(t, u, j);
    assert i + j + |u| <= |s|;
    assert forall k :: 0 <= k < |u| ==> s[i + j + k] == t[j + k] == u[k];
    assert OccursAt(s, u, i + j);
  }

  /** `substr($s, 0, $n)`: the first `n` characters, or all of `s`. */
  function Truncate(s: string, n: nat): (r: string)
    ensures |r| <= n && |r| <= |s|
    ensures r == s[..|r|]
    ensures |s| <= n ==> r == s
    ensures n < |s| ==> |r| == n
  {
    if |s| <= n then s else s[..n]
  }

  /** `asset('storage/' . $path)`: the public URL of a stored file under the
      application's asset root. It is never a falsy string. */
  function StorageUrl(assetRoot: string, path: string): (u: string)
    ensures TruthyStr(u)
    ensures Contains(u, "/storage/")
  {
    ContainsAt(assetRoot + "/storage/" + path, "/storage/", |assetRoot|);
    assetRoot + "/storage/" + path
  }
}
