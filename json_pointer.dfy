/**
 * Reference tokens of JSON Pointer (RFC 6901): the webhook's escapeJSONPointer, the
 * decoding of section 4 of RFC 6901 that undoes it, and the facts that make a label
 * key safe to embed in a patch path.
 */
module JsonPointer {
  import opened Strings

  /** escapeJSONPointer: `~` becomes `~0` first, then `/` becomes `~1`. */
  function Escape(key: string): (token: string)
    ensures '/' !in token
  {
    ReplaceChar(ReplaceChar(key, '~', "~0"), '/', "~1")
  }

  /** Section 4 of RFC 6901: `~1` becomes `/` first, then `~0` becomes `~`. */
  function Unescape(token: string): string {
    ReplacePair(ReplacePair(token, '~', '1', '/'), '~', '0', '~')
  }

  /** Every `~` in `t` is immediately followed by `d`. */
  predicate TildesFollowedBy(t: string, d: char) {
    forall i :: 0 <= i < |t| && t[i] == '~' ==> i + 1 < |t| && t[i + 1] == d
  }

  /** A reference token as section 3 of RFC 6901 writes it: no `/`, and `~` only in `~0` or `~1`. */
  predicate WellEscaped(token: string) {
    && '/' !in token
    && forall i :: 0 <= i < |token| && token[i] == '~' ==> i + 1 < |token| && (token[i + 1] == '0' || token[i + 1] == '1')
  }

  /** After the first rewrite, every `~` is the head of a `~0`. */
  lemma {:induction false} TildesEscaped(s: string)
    ensures TildesFollowedBy(ReplaceChar(s, '~', "~0"), '0')
  {
    if s != [] {
      TildesEscaped(s[1..]);
      var head := if s[0] == '~' then "~0" else [s[0]];
      var r := ReplaceChar(s, '~', "~0");
      var tail := ReplaceChar(s[1..], '~', "~0");
      assert r == head + tail;
      forall i | 0 <= i < |r| && r[i] == '~'
        ensures i + 1 < |r| && r[i + 1] == '0'
      {
        if i >= |head| {
          assert tail[i - |head|] == '~';
        }
      }
    }
  }

  /** The second rewrite keeps `~0` intact and adds only `~1`. */
  lemma {:induction false} SlashesEscaped(t: string)
    requires TildesFollowedBy(t, '0')
    ensures WellEscaped(ReplaceChar(t, '/', "~1"))
  {
    if t != [] {
      assert TildesFollowedBy(t[1..], '0') by {
        forall i | 0 <= i < |t[1..]| && t[1..][i] == '~'
          ensures i + 1 < |t[1..]| && t[1..][i + 1] == '0'
        {
          assert t[i + 1] == '~';
        }
      }
      SlashesEscaped(t[1..]);
      var head := if t[0] == '/' then "~1" else [t[0]];
      var r := ReplaceChar(t, '/', "~1");
      var tail := ReplaceChar(t[1..], '/', "~1");
      assert r == head + tail;
      if t[0] == '~' {
        assert t[1] == '0';
        assert tail == ['0'] + ReplaceChar(t[2..], '/', "~1") by {
          assert t[1..][0] == '0' && t[1..][1..] == t[2..];
        }
      }
      forall i | 0 <= i < |r| && r[i] == '~'
        ensures i + 1 < |r| && (r[i + 1] == '0' || r[i + 1] == '1')
      {
        if i >= |head| {
          assert tail[i - |head|] == '~';
        }
      }
    }
  }

  /** escapeJSONPointer produces a well-formed reference token. */
  lemma EscapeWellEscaped(key: string)
    ensures WellEscaped(Escape(key))
  {
    TildesEscaped(key);
    SlashesEscaped(ReplaceChar(key, '~', "~0"));
  }

  /** Decoding `~1` undoes the second rewrite, provided no `~1` was there before it. */
  lemma {:induction false} UnescapeSlashes(t: string)
    requires TildesFollowedBy(t, '0')
    ensures ReplacePair(ReplaceChar(t, '/', "~1"), '~', '1', '/') == t
  {
    if t != [] {
      var rest := t[1..];
      assert TildesFollowedBy(rest, '0') by {
        forall i | 0 <= i < |rest| && rest[i] == '~'
          ensures i + 1 < |rest| && rest[i + 1] == '0'
        {
          assert t[i + 1] == '~';
        }
      }
      UnescapeSlashes(rest);
      var tail := ReplaceChar(rest, '/', "~1");
      if t[0] == '/' {
        var r := "~1" + tail;
        assert ReplaceChar(t, '/', "~1") == r;
        assert r[2..] == tail;
      } else if t[0] == '~' {
        assert t[1] == '0';
        assert tail == ['0'] + ReplaceChar(rest[1..], '/', "~1") by {
          assert rest[0] == '0';
        }
        var r := ['~'] + tail;
        assert ReplaceChar(t, '/', "~1") == r;
        assert r[1..] == tail;
      } else {
        var r := [t[0]] + tail;
        assert ReplaceChar(t, '/', "~1") == r;
        assert r[1..] == tail;
        if |r| >= 2 {
          assert ReplacePair(r, '~', '1', '/') == [t[0]] + ReplacePair(tail, '~', '1', '/');
        } else {
          assert tail == [] && rest == [];
        }
      }
    }
  }

  /** Decoding `~0` undoes the first rewrite, for every key. */
  lemma {:induction false} UnescapeTildes(s: string)
    ensures ReplacePair(ReplaceChar(s, '~', "~0"), '~', '0', '~') == s
  {
    if s != [] {
      UnescapeTildes(s[1..]);
      var tail := ReplaceChar(s[1..], '~', "~0");
      if s[0] == '~' {
        var r := "~0" + tail;
        assert ReplaceChar(s, '~', "~0") == r;
        assert r[2..] == tail;
      } else {
        var r := [s[0]] + tail;
        assert ReplaceChar(s, '~', "~0") == r;
        assert r[1..] == tail;
        if |r| < 2 {
          assert tail == [] && s[1..] == [];
        }
      }
    }
  }

  /** Decoding a token recovers the label key it was made from. */
  lemma EscapeRoundTrip(key: string)
    ensures Unescape(Escape(key)) == key
  {
    TildesEscaped(key);
    UnescapeSlashes(ReplaceChar(key, '~', "~0"));
    UnescapeTildes(key);
  }

  /** Two different label keys never share a path. */
  lemma EscapeInjective(key1: string, key2: string)
    ensures Escape(key1) == Escape(key2) ==> key1 == key2
  {
    EscapeRoundTrip(key1);
    EscapeRoundTrip(key2);
  }

  /** The worked example: `a/b~c` is written `a~1b~0c`, and read back. */
  lemma EscapeExample()
    ensures Escape("a/b~c") == "a~1b~0c"
    ensures Unescape("a~1b~0c") == "a/b~c"
  {
    assert ReplaceChar("c", '~', "~0") == "c";
    assert ReplaceChar("~c", '~', "~0") == "~0c";
    assert ReplaceChar("b~c", '~', "~0") == "b~0c";
    assert ReplaceChar("/b~c", '~', "~0") == "/b~0c";
    assert ReplaceChar("a/b~c", '~', "~0") == "a/b~0c";
    assert ReplaceChar("0c", '/', "~1") == "0c";
    assert ReplaceChar("~0c", '/', "~1") == "~0c";
    assert ReplaceChar("b~0c", '/', "~1") == "b~0c";
    assert ReplaceChar("/b~0c", '/', "~1") == "~1b~0c";
    assert ReplaceChar("a/b~0c", '/', "~1") == "a~1b~0c";
    EscapeRoundTrip("a/b~c");
  }
}
