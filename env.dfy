/**
 * Environment-variable keys (env.go): the prefix carried by the context, the
 * key normalisation, and the two lookups that combine them. The process
 * environment is passed in as a map from variable name to value.
 */
module Env {
  import opened Wrappers
  import opened Context

  /** `withEnvPrefix`: binds the prefix, the empty one included. */
  function WithEnvPrefix(ctx: Ctx, prefix: string): (r: Ctx)
    ensures EnvPrefix(r) == prefix
    ensures forall k :: k != EnvPrefixKey ==> Lookup(r, k) == Lookup(ctx, k)
  {
    WithValue(ctx, EnvPrefixKey, Text(prefix))
  }

  /** `EnvPrefix`: the bound prefix, or "" when none is bound. */
  function EnvPrefix(ctx: Ctx): (r: string)
    ensures Lookup(ctx, EnvPrefixKey).None? ==> r == ""
  {
    TextValue(ctx, EnvPrefixKey)
  }

  // ---------------------------------------------------------------------------
  // Characters

  /**
   * A non-spacing combining mark (Unicode category Mn). The model covers the
   * Combining Diacritical Marks block, which holds the accents that canonical
   * decomposition splits off Latin letters.
   */
  predicate IsCombiningMark(c: char) {
    '\U{0300}' <= c <= '\U{036F}'
  }

  predicate IsAsciiAlnum(c: char) {
    ('A' <= c <= 'Z') || ('a' <= c <= 'z') || ('0' <= c <= '9')
  }

  /** `unicode.ToUpper` on the characters it is applied to here (ASCII letters and digits). */
  function ToUpper(c: char): (u: char)
    ensures IsAsciiAlnum(c) ==> IsKeyChar(u) && u != '_'
    ensures 'a' <= c <= 'z' ==> u as int == c as int - 32
    ensures !('a' <= c <= 'z') ==> u == c
  {
    if 'a' <= c <= 'z' then (c as int - 32) as char else c
  }

  /** The POSIX-safe alphabet `[A-Z0-9_]` of a normalised key. */
  predicate IsKeyChar(c: char) {
    ('A' <= c <= 'Z') || ('0' <= c <= '9') || c == '_'
  }

  /** A normalised key: only `[A-Z0-9_]`, no `_` at either end, never two `_` in a row. */
  predicate WellFormedKey(k: seq<char>) {
    && (forall i :: 0 <= i < |k| ==> IsKeyChar(k[i]))
    && (|k| > 0 ==> k[0] != '_' && k[|k| - 1] != '_')
    && NoDoubleUnderscore(k)
  }

  predicate NoDoubleUnderscore(k: seq<char>) {
    forall i :: 0 <= i < |k| - 1 ==> !(k[i] == '_' && k[i + 1] == '_')
  }

  /** What the loop builds before trimming: key characters and no two `_` in a row. */
  predicate Scanned(out: seq<char>) {
    (forall i :: 0 <= i < |out| ==> IsKeyChar(out[i])) && NoDoubleUnderscore(out)
  }

  /** The non-underscore characters of `s`, in order. */
  function Letters(s: seq<char>): seq<char> {
    if s == [] then [] else (if s[0] != '_' then [s[0]] else []) + Letters(s[1..])
  }

  /** The ASCII letters and digits of `s`, upper-cased, in order. */
  function UpperAlnums(s: seq<char>): seq<char> {
    if s == [] then [] else (if IsAsciiAlnum(s[0]) then [ToUpper(s[0])] else []) + UpperAlnums(s[1..])
  }

  function UpperAll(w: seq<char>): (u: seq<char>)
    ensures |u| == |w| && forall i :: 0 <= i < |w| ==> u[i] == ToUpper(w[i])
  {
    seq(|w|, i requires 0 <= i < |w| => ToUpper(w[i]))
  }

  // ---------------------------------------------------------------------------
  // NormalizeEnvKey

  /**
   * One iteration of the rune loop: a combining mark is skipped, an ASCII
   * letter or digit is appended upper-cased, anything else appends `_` unless
   * the output already ends with one.
   */
  function Push(out: seq<char>, c: char): seq<char> {
    if IsCombiningMark(c) then out
    else if IsAsciiAlnum(c) then out + [ToUpper(c)]
    else if |out| > 0 && out[|out| - 1] == '_' then out
    else out + ['_']
  }

  /** The loop run over all of `s`, starting from `out`. */
  function PushAll(out: seq<char>, s: seq<char>): seq<char>
    decreases |s|
  {
    if s == [] then out else Push(PushAll(out, s[..|s| - 1]), s[|s| - 1])
  }

  /** `strings.Trim(s, "_")`. */
  function Trim(s: seq<char>): seq<char> {
    TrimRight(TrimLeft(s))
  }

  function TrimLeft(s: seq<char>): seq<char> {
    if |s| > 0 && s[0] == '_' then TrimLeft(s[1..]) else s
  }

  function TrimRight(s: seq<char>): seq<char> {
    if |s| > 0 && s[|s| - 1] == '_' then TrimRight(s[..|s| - 1]) else s
  }

  /** What `NormalizeEnvKey` computes, on input already in decomposed (NFD) form. */
  function NormalizedKey(name: seq<char>): seq<char> {
    Trim(PushAll([], name))
  }

  /**
   * `NormalizeEnvKey`: the rune loop, appending to `out` and looking at its last
   * element, then the trim. The input is taken as already decomposed, so that
   * an accented letter arrives as its base letter followed by combining marks.
   */
  method NormalizeEnvKey(name: string) returns (key: string)
    ensures key == NormalizedKey(name)
    ensures WellFormedKey(key)
    ensures Letters(key) == UpperAlnums(name)
  {
    var out: seq<char> := [];
    var i := 0;
    while i < |name|
      invariant 0 <= i <= |name|
      invariant out == PushAll([], name[..i])
    {
      var r := name[i];
      assert name[..i + 1][..i] == name[..i];
      i := i + 1;
      if IsCombiningMark(r) {
        continue;
      }
      if IsAsciiAlnum(r) {
        out := out + [ToUpper(r)];
      } else {
        if |out| > 0 && out[|out| - 1] == '_' {
          continue;
        }
        out := out + ['_'];
      }
    }
    assert name[..|name|] == name;
    key := Trim(out);
    NormalizedKeyShape(name);
  }

  // ---------------------------------------------------------------------------
  // Lookups

  /** `os.Getenv`: the value, or "" for an unset variable. */
  function Getenv(environ: map<string, string>, k: string): string {
    if k in environ then environ[k] else ""
  }

  /** `GetEnv`: reads the variable named by the normalised prefix-plus-key. */
  function GetEnv(ctx: Ctx, key: string, environ: map<string, string>): (r: string)
    ensures NormalizedKey(EnvPrefix(ctx) + key) in environ ==> r == environ[NormalizedKey(EnvPrefix(ctx) + key)]
    ensures NormalizedKey(EnvPrefix(ctx) + key) !in environ ==> r == ""
  {
    Getenv(environ, NormalizedKey(EnvPrefix(ctx) + key))
  }

  /**
   * `LookupEnv`: reads the variable named by the raw prefix-plus-key, and
   * normalises the value it found (not the name).
   */
  function LookupEnv(ctx: Ctx, key: string, environ: map<string, string>): (r: (string, bool))
    ensures r.1 <==> EnvPrefix(ctx) + key in environ
    ensures r.1 ==> r.0 == NormalizedKey(environ[EnvPrefix(ctx) + key])
    ensures !r.1 ==> r.0 == ""
    ensures WellFormedKey(r.0)
  {
    var v := Getenv(environ, EnvPrefix(ctx) + key);
    NormalizedKeyShape(v);
    (NormalizedKey(v), EnvPrefix(ctx) + key in environ)
  }

  // ---------------------------------------------------------------------------
  // Properties of the normalisation

  lemma {:induction false} LettersAppend(a: seq<char>, b: seq<char>)
    ensures Letters(a + b) == Letters(a) + Letters(b)
  {
    if a == [] {
      assert a + b == b;
    } else {
      var h := if a[0] != '_' then [a[0]] else [];
      assert (a + b)[0] == a[0] && (a + b)[1..] == a[1..] + b;
      assert Letters(a + b) == h + Letters(a[1..] + b);
      LettersAppend(a[1..], b);
      assert h + (Letters(a[1..]) + Letters(b)) == (h + Letters(a[1..])) + Letters(b);
    }
  }

  lemma {:induction false} UpperAlnumsAppend(a: seq<char>, b: seq<char>)
    ensures UpperAlnums(a + b) == UpperAlnums(a) + UpperAlnums(b)
  {
    if a == [] {
      assert a + b == b;
    } else {
      var h := if IsAsciiAlnum(a[0]) then [ToUpper(a[0])] else [];
      assert (a + b)[0] == a[0] && (a + b)[1..] == a[1..] + b;
      assert UpperAlnums(a + b) == h + UpperAlnums(a[1..] + b);
      UpperAlnumsAppend(a[1..], b);
      assert h + (UpperAlnums(a[1..]) + UpperAlnums(b)) == (h + UpperAlnums(a[1..])) + UpperAlnums(b);
    }
  }

  /** The loop keeps its output in the key alphabet with no doubled `_`. */
  lemma {:induction false} PushAllScanned(out: seq<char>, s: seq<char>)
    requires Scanned(out)
    ensures Scanned(PushAll(out, s))
    decreases |s|
  {
    if s != [] {
      PushAllScanned(out, s[..|s| - 1]);
    }
  }

  /** The letters the loop emits are exactly the input's ASCII letters and digits, upper-cased. */
  lemma {:induction false} PushAllLetters(out: seq<char>, s: seq<char>)
    ensures Letters(PushAll(out, s)) == Letters(out) + UpperAlnums(s)
    decreases |s|
  {
    if s != [] {
      var init, c := s[..|s| - 1], s[|s| - 1];
      var p := PushAll(out, init);
      PushAllLetters(out, init);
      assert s == init + [c];
      UpperAlnumsAppend(init, [c]);
      if IsCombiningMark(c) {
      } else if IsAsciiAlnum(c) {
        LettersAppend(p, [ToUpper(c)]);
      } else if |p| > 0 && p[|p| - 1] == '_' {
      } else {
        LettersAppend(p, ['_']);
      }
    }
  }

  lemma {:induction false} TrimLeftShape(s: seq<char>)
    ensures Letters(TrimLeft(s)) == Letters(s)
    ensures |TrimLeft(s)| <= |s| && TrimLeft(s) == s[|s| - |TrimLeft(s)|..]
    ensures |TrimLeft(s)| > 0 ==> TrimLeft(s)[0] != '_'
    decreases |s|
  {
    if |s| > 0 && s[0] == '_' {
      TrimLeftShape(s[1..]);
      assert s == [s[0]] + s[1..];
      LettersAppend([s[0]], s[1..]);
    }
  }

  lemma {:induction false} TrimRightShape(s: seq<char>)
    ensures Letters(TrimRight(s)) == Letters(s)
    ensures |TrimRight(s)| <= |s| && TrimRight(s) == s[..|TrimRight(s)|]
    ensures |TrimRight(s)| > 0 ==> TrimRight(s)[|TrimRight(s)| - 1] != '_'
    decreases |s|
  {
    if |s| > 0 && s[|s| - 1] == '_' {
      var init := s[..|s| - 1];
      TrimRightShape(init);
      assert s == init + [s[|s| - 1]];
      LettersAppend(init, [s[|s| - 1]]);
    }
  }

  /**
   * The output of the normalisation is a well-formed key, and its letters are
   * the input's ASCII letters and digits upper-cased, in their original order
   * (combining marks and every other character contribute none).
   */
  lemma NormalizedKeyShape(name: seq<char>)
    ensures WellFormedKey(NormalizedKey(name))
    ensures Letters(NormalizedKey(name)) == UpperAlnums(name)
  {
    var out := PushAll([], name);
    PushAllScanned([], name);
    PushAllLetters([], name);
    var l := TrimLeft(out);
    TrimLeftShape(out);
    TrimRightShape(l);
    var r := TrimRight(l);
    ScannedSlice(out, |out| - |l|, |out|);
    assert Scanned(l);
    ScannedSlice(l, 0, |r|);
    assert Scanned(r);
    assert |r| > 0 ==> r[0] == l[0];
  }

  /** Every slice of a scanned output is scanned. */
  lemma ScannedSlice(s: seq<char>, i: nat, j: nat)
    requires Scanned(s) && i <= j <= |s|
    ensures Scanned(s[i..j])
  {
    var t := s[i..j];
    forall k | 0 <= k < |t| - 1 ensures !(t[k] == '_' && t[k + 1] == '_') {
      assert t[k] == s[i + k] && t[k + 1] == s[i + k + 1];
    }
  }

  /** A name with no ASCII letter or digit normalises to the empty key. */
  lemma NoAlnumGivesEmptyKey(name: seq<char>)
    requires forall i :: 0 <= i < |name| ==> !IsAsciiAlnum(name[i])
    ensures NormalizedKey(name) == ""
  {
    NormalizedKeyShape(name);
    NoAlnumUpper(name);
  }

  lemma {:induction false} NoAlnumUpper(s: seq<char>)
    requires forall i :: 0 <= i < |s| ==> !IsAsciiAlnum(s[i])
    ensures UpperAlnums(s) == []
  {
    if s != [] {
      NoAlnumUpper(s[1..]);
    }
  }

  /** Running the loop over a well-formed key gives the key back. */
  lemma {:induction false} PushAllKeepsKey(t: seq<char>, k: nat)
    requires WellFormedKey(t) && k <= |t|
    ensures PushAll([], t[..k]) == t[..k]
  {
    if k > 0 {
      PushAllKeepsKey(t, k - 1);
      assert t[..k][..k - 1] == t[..k - 1];
      assert t[..k] == t[..k - 1] + [t[k - 1]];
    }
  }

  /** Normalisation is idempotent. */
  lemma NormalizeIdempotent(name: seq<char>)
    ensures NormalizedKey(NormalizedKey(name)) == NormalizedKey(name)
  {
    var t := NormalizedKey(name);
    NormalizedKeyShape(name);
    PushAllKeepsKey(t, |t|);
    assert t[..|t|] == t;
  }

  lemma {:induction false} PushAllAppend(out: seq<char>, a: seq<char>, b: seq<char>)
    ensures PushAll(out, a + b) == PushAll(PushAll(out, a), b)
    decreases |b|
  {
    if b == [] {
      assert a + b == a;
    } else {
      assert (a + b)[..|a + b| - 1] == a + b[..|b| - 1];
      assert (a + b)[|a + b| - 1] == b[|b| - 1];
      PushAllAppend(out, a, b[..|b| - 1]);
    }
  }

  /** `out` extended by one separator: unchanged if it already ends with `_`. */
  function WithSeparator(out: seq<char>): seq<char> {
    if |out| > 0 && out[|out| - 1] == '_' then out else out + ['_']
  }

  /**
   * A run of characters that are not ASCII letters or digits adds exactly one
   * `_` (none when the output already ends with one), however long the run
   * and wherever combining marks sit inside it; a run of marks alone adds
   * nothing.
   */
  lemma {:induction false} SeparatorRun(out: seq<char>, sep: seq<char>)
    requires forall i :: 0 <= i < |sep| ==> !IsAsciiAlnum(sep[i])
    ensures PushAll(out, sep) ==
      if forall i :: 0 <= i < |sep| ==> IsCombiningMark(sep[i]) then out else WithSeparator(out)
    decreases |sep|
  {
    if sep != [] {
      var init := sep[..|sep| - 1];
      SeparatorRun(out, init);
      if !IsCombiningMark(sep[|sep| - 1]) {
        assert !(forall i :: 0 <= i < |sep| ==> IsCombiningMark(sep[i]));
      } else if !(forall i :: 0 <= i < |init| ==> IsCombiningMark(init[i])) {
        var j :| 0 <= j < |init| && !IsCombiningMark(init[j]);
        assert !IsCombiningMark(sep[j]);
      } else {
        assert forall i :: 0 <= i < |sep| ==> IsCombiningMark(sep[i]) by {
          forall i | 0 <= i < |sep| ensures IsCombiningMark(sep[i]) {
            if i < |init| { assert sep[i] == init[i]; }
          }
        }
      }
    }
  }

  /** ASCII letters and digits are appended one for one, upper-cased. */
  lemma {:induction false} AlnumWord(out: seq<char>, w: seq<char>)
    requires forall i :: 0 <= i < |w| ==> IsAsciiAlnum(w[i])
    ensures PushAll(out, w) == out + UpperAll(w)
    decreases |w|
  {
    if w != [] {
      var init := w[..|w| - 1];
      AlnumWord(out, init);
      assert UpperAll(w) == UpperAll(init) + [ToUpper(w[|w| - 1])];
    }
  }

  /**
   * Two words of ASCII letters and digits joined by any separator run
   * (containing at least one character that is not a combining mark) normalise
   * to the upper-cased words joined by a single `_`.
   */
  lemma WordsJoinedBySeparator(w1: seq<char>, sep: seq<char>, w2: seq<char>)
    requires |w1| > 0 && |w2| > 0
    requires forall i :: 0 <= i < |w1| ==> IsAsciiAlnum(w1[i])
    requires forall i :: 0 <= i < |w2| ==> IsAsciiAlnum(w2[i])
    requires forall i :: 0 <= i < |sep| ==> !IsAsciiAlnum(sep[i])
    requires exists i :: 0 <= i < |sep| && !IsCombiningMark(sep[i])
    ensures PushAll([], w1 + sep + w2) == UpperAll(w1) + "_" + UpperAll(w2)
    ensures NormalizedKey(w1 + sep + w2) == UpperAll(w1) + "_" + UpperAll(w2)
  {
    var u1, u2 := UpperAll(w1), UpperAll(w2);
    AlnumWord([], w1);
    assert PushAll([], w1) == u1;
    PushAllAppend([], w1, sep);
    SeparatorRun(u1, sep);
    assert u1[|u1| - 1] != '_' by {
      assert u1[|u1| - 1] == ToUpper(w1[|w1| - 1]);
    }
    var mid := u1 + "_";
    assert WithSeparator(u1) == mid;
    assert PushAll([], w1 + sep) == mid;
    PushAllAppend([], w1 + sep, w2);
    AlnumWord(mid, w2);
    var r := mid + u2;
    assert PushAll([], w1 + sep + w2) == r;
    assert r[0] == u1[0] && u1[0] == ToUpper(w1[0]);
    assert r[|r| - 1] == u2[|u2| - 1] && u2[|u2| - 1] == ToUpper(w2[|w2| - 1]);
    assert TrimLeft(r) == r;
    assert TrimRight(r) == r;
  }

  /** The loop's output for the first part of the documented example, up to the accent. */
  lemma DocumentedExamplePrefix()
    ensures PushAll([], "my-E\U{0301}") == "MY_E"
  {
    assert PushAll([], "my") == "MY" by {
      AlnumWord([], "my");
      assert UpperAll("my") == "MY";
    }
    assert PushAll([], "my-") == "MY_" by {
      SeparatorRun("MY", "-");
      assert !IsCombiningMark("-"[0]);
      PushAllAppend([], "my", "-");
      assert "my" + "-" == "my-";
    }
    assert PushAll([], "my-E") == "MY_E" by {
      AlnumWord("MY_", "E");
      assert UpperAll("E") == "E";
      PushAllAppend([], "my-", "E");
      assert "my-" + "E" == "my-E";
    }
    SeparatorRun("MY_E", "\U{0301}");
    PushAllAppend([], "my-E", "\U{0301}");
    assert "my-E" + "\U{0301}" == "my-E\U{0301}";
  }

  /** The loop's output for the example up to the dot. */
  lemma DocumentedExampleMiddle()
    ensures PushAll([], "my-E\U{0301}nv.") == "MY_ENV_"
  {
    DocumentedExamplePrefix();
    assert PushAll([], "my-E\U{0301}nv") == "MY_ENV" by {
      AlnumWord("MY_E", "nv");
      assert UpperAll("nv") == "NV";
      PushAllAppend([], "my-E\U{0301}", "nv");
      assert "my-E\U{0301}" + "nv" == "my-E\U{0301}nv";
    }
    SeparatorRun("MY_ENV", ".");
    assert !IsCombiningMark("."[0]);
    PushAllAppend([], "my-E\U{0301}nv", ".");
    assert "my-E\U{0301}nv" + "." == "my-E\U{0301}nv.";
  }

  /** The example from the documentation: "my-Énv.key", with É decomposed, normalises to "MY_ENV_KEY". */
  lemma DocumentedExample()
    ensures NormalizedKey("my-E\U{0301}nv.key") == "MY_ENV_KEY"
  {
    DocumentedExampleMiddle();
    AlnumWord("MY_ENV_", "key");
    var u := UpperAll("key");
    assert u[0] == 'K' && u[1] == 'E' && u[2] == 'Y';
    assert u == "KEY";
    PushAllAppend([], "my-E\U{0301}nv.", "key");
    assert "my-E\U{0301}nv." + "key" == "my-E\U{0301}nv.key";
    assert PushAll([], "my-E\U{0301}nv.key") == "MY_ENV_KEY";
  }

  /**
   * How the loop treats a character: -1 for a skipped combining mark, the
   * upper-cased code for an ASCII letter or digit, the code of `_` for any
   * other character.
   */
  function CharClass(c: char): int {
    if IsCombiningMark(c) then -1
    else if IsAsciiAlnum(c) then ToUpper(c) as int
    else '_' as int
  }

  /** Two names that differ only in letter case, in which separators they use, and in marks standing where marks stand. */
  predicate SameSpelling(a: seq<char>, b: seq<char>) {
    |a| == |b| && forall i :: 0 <= i < |a| ==> CharClass(a[i]) == CharClass(b[i])
  }

  lemma {:induction false} PushAllSameSpelling(out: seq<char>, a: seq<char>, b: seq<char>)
    requires SameSpelling(a, b)
    ensures PushAll(out, a) == PushAll(out, b)
    decreases |a|
  {
    if a != [] {
      var n := |a| - 1;
      assert SameSpelling(a[..n], b[..n]) by {
        forall i | 0 <= i < n ensures CharClass(a[..n][i]) == CharClass(b[..n][i]) {
          assert a[..n][i] == a[i] && b[..n][i] == b[i];
        }
      }
      PushAllSameSpelling(out, a[..n], b[..n]);
      assert CharClass(a[n]) == CharClass(b[n]);
    }
  }

  /**
   * `GetEnv` reads the same variable for keys that differ only in case and
   * separators: "grace-period", "Grace.Period" and "GRACE_PERIOD" are one key.
   */
  lemma GetEnvIgnoresSpelling(ctx: Ctx, k1: string, k2: string, environ: map<string, string>)
    requires SameSpelling(k1, k2)
    ensures GetEnv(ctx, k1, environ) == GetEnv(ctx, k2, environ)
  {
    var p := EnvPrefix(ctx);
    PushAllAppend([], p, k1);
    PushAllAppend([], p, k2);
    PushAllSameSpelling(PushAll([], p), k1, k2);
  }

  /**
   * `LookupEnv` does not normalise the name it reads: with prefix "app_" and
   * only `APP_PORT=8080` set, `GetEnv(ctx, "port")` finds "8080" while
   * `LookupEnv(ctx, "port")` reports the variable as unset.
   */
  lemma LookupEnvReadsRawName()
    ensures var ctx, environ := WithEnvPrefix(Background, "app_"), map["APP_PORT" := "8080"];
      GetEnv(ctx, "port", environ) == "8080" && LookupEnv(ctx, "port", environ) == ("", false)
  {
    var ctx := WithEnvPrefix(Background, "app_");
    assert EnvPrefix(ctx) + "port" == "app" + "_" + "port";
    assert !IsCombiningMark("_"[0]) && !IsAsciiAlnum("_"[0]);
    assert forall i :: 0 <= i < |"app"| ==> IsAsciiAlnum("app"[i]);
    assert forall i :: 0 <= i < |"port"| ==> IsAsciiAlnum("port"[i]);
    WordsJoinedBySeparator("app", "_", "port");
    UpperAppPort();
    assert NormalizedKey("") == "";
  }

  /** The two words of the lookup example, upper-cased and joined. */
  lemma UpperAppPort()
    ensures UpperAll("app") + "_" + UpperAll("port") == "APP_PORT"
  {
    var a, p := UpperAll("app"), UpperAll("port");
    assert a[0] == 'A' && a[1] == 'P' && a[2] == 'P';
    assert a == "APP";
    assert p[0] == 'P' && p[1] == 'O' && p[2] == 'R' && p[3] == 'T';
    assert p == "PORT";
  }
}
