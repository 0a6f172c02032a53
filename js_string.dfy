/**
 * The JavaScript string operations the gate, the forms and the chat components rely on:
 * `String.prototype.startsWith`, `Array.prototype.some` over a prefix list,
 * `String.prototype.trim` and JavaScript truthiness of an optional string.
 */
module JsString {
  import opened Wrappers

  /** `s.startsWith(prefix)`: a case-sensitive prefix test with no segment boundary. */
  predicate StartsWith(s: string, prefix: string) {
    prefix <= s
  }

  /** `prefixes.some((p) => s.startsWith(p))`, scanning the list from the front. */
  predicate SomeStartsWith(prefixes: seq<string>, s: string) {
    if prefixes == [] then false
    else StartsWith(s, prefixes[0]) || SomeStartsWith(prefixes[1..], s)
  }

  /** The scan succeeds exactly when some listed prefix is a prefix of `s`. */
  lemma {:induction false} SomeStartsWithIff(prefixes: seq<string>, s: string)
    ensures SomeStartsWith(prefixes, s) <==> exists i :: 0 <= i < |prefixes| && StartsWith(s, prefixes[i])
  {
    if prefixes != [] {
      SomeStartsWithIff(prefixes[1..], s);
      if !StartsWith(s, prefixes[0]) && SomeStartsWith(prefixes, s) {
        var i :| 0 <= i < |prefixes[1..]| && StartsWith(s, prefixes[1..][i]);
        assert StartsWith(s, prefixes[i + 1]);
      }
      if exists i :: 0 <= i < |prefixes| && StartsWith(s, prefixes[i]) {
        var i :| 0 <= i < |prefixes| && StartsWith(s, prefixes[i]);
        if i > 0 {
          assert StartsWith(s, prefixes[1..][i - 1]);
        }
      }
    }
  }

  /** A prefix test is unaffected by what follows the prefix. */
  lemma PrefixOfExtension(prefix: string, rest: string)
    ensures StartsWith(prefix + rest, prefix)
  {
    assert (prefix + rest)[..|prefix|] == prefix;
  }

  /**
   * The characters `String.prototype.trim` removes: the ECMAScript WhiteSpace
   * and LineTerminator code points.
   */
  predicate IsWhitespace(c: char) {
    c == '\t' || c == '\n' || c == '\U{B}' || c == '\U{C}' || c == '\r' || c == ' '
    || c == '\U{A0}' || c == '\U{1680}' || ('\U{2000}' <= c <= '\U{200A}')
    || c == '\U{2028}' || c == '\U{2029}' || c == '\U{202F}' || c == '\U{205F}'
    || c == '\U{3000}' || c == '\U{FEFF}'
  }

  /** Every character of `s` is whitespace (vacuously so for ""). */
  predicate IsBlank(s: string) {
    forall i :: 0 <= i < |s| ==> IsWhitespace(s[i])
  }

  function TrimStart(s: string): string {
    if s != [] && IsWhitespace(s[0]) then TrimStart(s[1..]) else s
  }

  function TrimEnd(s: string): string {
    if s != [] && IsWhitespace(s[|s| - 1]) then TrimEnd(s[..|s| - 1]) else s
  }

  /** `s.trim()`. */
  function Trim(s: string): string {
    TrimEnd(TrimStart(s))
  }

  lemma {:induction false} TrimStartBlank(s: string)
    ensures IsBlank(TrimStart(s)) <==> IsBlank(s)
    ensures TrimStart(s) == [] <==> IsBlank(s)
  {
    if s != [] && IsWhitespace(s[0]) {
      TrimStartBlank(s[1..]);
      assert IsBlank(s) <==> IsBlank(s[1..]) by {
        if IsBlank(s[1..]) {
          forall i | 0 <= i < |s| ensures IsWhitespace(s[i]) {
            if i > 0 { assert s[i] == s[1..][i - 1]; }
          }
        }
      }
    } else if s != [] {
      assert !IsWhitespace(s[0]);
    }
  }

  lemma {:induction false} TrimEndEmpty(s: string)
    ensures TrimEnd(s) == [] <==> IsBlank(s)
  {
    if s != [] && IsWhitespace(s[|s| - 1]) {
      var init := s[..|s| - 1];
      TrimEndEmpty(init);
      assert IsBlank(s) <==> IsBlank(init) by {
        if IsBlank(init) {
          forall i | 0 <= i < |s| ensures IsWhitespace(s[i]) {
            if i < |s| - 1 { assert s[i] == init[i]; }
          }
        }
      }
    } else if s != [] {
      assert !IsWhitespace(s[|s| - 1]);
    }
  }

  /** `!s.trim()` holds exactly for the strings made only of whitespace, "" included. */
  lemma TrimEmptyIffBlank(s: string)
    ensures Trim(s) == [] <==> IsBlank(s)
  {
    TrimStartBlank(s);
    TrimEndEmpty(TrimStart(s));
  }

  /** JavaScript truthiness of a value that is a string, `null` or `undefined`: only a non-empty string is truthy. */
  predicate Truthy(v: Option<string>) {
    v.Some? && v.value != ""
  }
}
