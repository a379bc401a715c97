/** Case conversion of keys and the tag flattening (src/helpers.ts).
    Case mapping is ASCII: `toLowerCase`/`toUpperCase` change only A-Z and a-z. */
module Helpers {
  import opened Js

  predicate IsLower(c: char) { 'a' <= c <= 'z' }
  predicate IsUpper(c: char) { 'A' <= c <= 'Z' }

  function LowerChar(c: char): (r: char)
    ensures !IsUpper(r)
    ensures !IsUpper(c) ==> r == c
    ensures IsUpper(c) ==> IsLower(r)
  {
    if IsUpper(c) then (c as int + 32) as char else c
  }

  function UpperChar(c: char): (r: char)
    ensures !IsLower(r)
    ensures !IsLower(c) ==> r == c
    ensures IsLower(c) ==> IsUpper(r) && LowerChar(r) == c
  {
    if IsLower(c) then (c as int - 32) as char else c
  }

  /** `toLowerCase()`. */
  function Lower(s: string): (r: string)
    ensures |r| == |s|
    ensures forall i :: 0 <= i < |s| ==> r[i] == LowerChar(s[i])
  {
    if s == "" then "" else [LowerChar(s[0])] + Lower(s[1..])
  }

  predicate NoUpper(s: string)
  {
    forall i :: 0 <= i < |s| ==> !IsUpper(s[i])
  }

  lemma LowerOfNoUpper(s: string)
    requires NoUpper(s)
    ensures Lower(s) == s
  {
  }

  /** No lowercase letter is directly followed by an uppercase one. */
  predicate NoLowerUpper(s: string)
  {
    forall i :: 0 <= i < |s| - 1 ==> !(IsLower(s[i]) && IsUpper(s[i + 1]))
  }

  /** No two uppercase letters are directly followed by a lowercase one. */
  predicate NoUpperUpperLower(s: string)
  {
    forall i :: 0 <= i < |s| - 2 ==> !(IsUpper(s[i]) && IsUpper(s[i + 1]) && IsLower(s[i + 2]))
  }

  /** `replace(/([a-z])([A-Z])/g, "$1_$2")`: a match consumes both letters and the scan resumes after them. */
  function SplitLowerUpper(s: string): (r: string)
    ensures |r| >= |s|
    ensures s != "" ==> r != "" && r[0] == s[0]
  {
    if |s| >= 2 && IsLower(s[0]) && IsUpper(s[1]) then [s[0], '_', s[1]] + SplitLowerUpper(s[2..])
    else if s == "" then ""
    else [s[0]] + SplitLowerUpper(s[1..])
  }

  /** `replace(/([A-Z])([A-Z])(?=[a-z])/g, "$1_$2")`: the lookahead letter is not consumed. */
  function SplitUpperRun(s: string): (r: string)
    ensures |r| >= |s|
    ensures s != "" ==> r != "" && r[0] == s[0]
    ensures |s| <= 2 ==> r == s
  {
    if |s| >= 3 && IsUpper(s[0]) && IsUpper(s[1]) && IsLower(s[2]) then [s[0], '_', s[1]] + SplitUpperRun(s[2..])
    else if s == "" then ""
    else [s[0]] + SplitUpperRun(s[1..])
  }

  /** `camelToSnakeCase`. */
  function CamelToSnakeCase(s: string): (r: string)
    ensures s == "" ==> r == ""
    ensures NoUpper(r)
  {
    if s == "" then "" else Lower(SplitUpperRun(SplitLowerUpper(s)))
  }

  /** The characters of `s` other than `c`, in order. */
  function Without(c: char, s: string): (r: string)
    ensures c !in r
  {
    if s == "" then "" else (if s[0] == c then "" else [s[0]]) + Without(c, s[1..])
  }

  lemma WithoutAppend(c: char, a: string, b: string)
    ensures Without(c, a + b) == Without(c, a) + Without(c, b)
  {
    if a != "" {
      assert (a + b)[1..] == a[1..] + b;
      WithoutAppend(c, a[1..], b);
    } else {
      assert a + b == b;
    }
  }

  lemma LettersKept(a: char, b: char)
    requires a != '_' && b != '_'
    ensures Without('_', [a, '_', b]) == [a, b] == Without('_', [a, b])
  {
    assert [a, '_', b][1..] == ['_', b] && ['_', b][1..] == [b] && [a, b][1..] == [b];
    assert Without('_', [b]) == [b];
    assert Without('_', ['_', b]) == [b];
  }

  /** Inserting "_" between two characters keeps the other characters, in order. */
  lemma InsertUnderscore(a: char, b: char, rest: string, t: string)
    requires a != '_' && b != '_'
    requires Without('_', t) == Without('_', rest)
    ensures Without('_', [a, '_', b] + t) == Without('_', [a, b] + rest)
  {
    WithoutAppend('_', [a, '_', b], t);
    WithoutAppend('_', [a, b], rest);
    LettersKept(a, b);
  }

  /** `r` is `s` with zero or more "_" inserted, and nothing else changed. */
  predicate Inserted(s: string, r: string)
    decreases |r|
  {
    || r == s
    || (r != "" && r[0] == '_' && Inserted(s, r[1..]))
    || (s != "" && r != "" && r[0] == s[0] && Inserted(s[1..], r[1..]))
  }

  /** An insertion of underscores keeps every other character, in order. */
  lemma {:induction false} InsertedKeeps(s: string, r: string)
    requires Inserted(s, r)
    ensures Without('_', r) == Without('_', s)
    decreases |r|
  {
    if r == s {
    } else if r != "" && r[0] == '_' && Inserted(s, r[1..]) {
      InsertedKeeps(s, r[1..]);
    } else {
      InsertedKeeps(s[1..], r[1..]);
    }
  }

  /** `[a, '_', b] + t` inserts into `[a, b] + rest` whatever `t` inserts into `rest`. */
  lemma InsertedPair(a: char, b: char, rest: string, t: string)
    requires Inserted(rest, t)
    ensures Inserted([a, b] + rest, [a, '_', b] + t)
  {
    var s, r := [a, b] + rest, [a, '_', b] + t;
    assert s[1..] == [b] + rest && s[1..][1..] == rest;
    assert r[1..] == ['_', b] + t && r[1..][1..] == [b] + t && r[1..][1..][1..] == t;
    assert Inserted(s[1..], r[1..][1..]);
  }

  /** `[a] + t` inserts into `[a] + rest` whatever `t` inserts into `rest`. */
  lemma InsertedCons(a: char, rest: string, t: string)
    requires Inserted(rest, t)
    ensures Inserted([a] + rest, [a] + t)
  {
    assert ([a] + rest)[1..] == rest && ([a] + t)[1..] == t;
  }

  /** The first pass only inserts "_": every other character stays, in order. */
  lemma {:induction false} SplitLowerUpperKeeps(s: string)
    ensures Inserted(s, SplitLowerUpper(s))
    ensures Without('_', SplitLowerUpper(s)) == Without('_', s)
    decreases |s|
  {
    if |s| >= 2 && IsLower(s[0]) && IsUpper(s[1]) {
      SplitLowerUpperKeeps(s[2..]);
      InsertUnderscore(s[0], s[1], s[2..], SplitLowerUpper(s[2..]));
      InsertedPair(s[0], s[1], s[2..], SplitLowerUpper(s[2..]));
      assert s == [s[0], s[1]] + s[2..];
    } else if s != "" {
      SplitLowerUpperKeeps(s[1..]);
      WithoutAppend('_', [s[0]], SplitLowerUpper(s[1..]));
      InsertedCons(s[0], s[1..], SplitLowerUpper(s[1..]));
      assert s == [s[0]] + s[1..];
    }
  }

  /** After the first pass no lowercase letter is followed by an uppercase one. */
  lemma {:induction false} SplitLowerUpperBreaks(s: string)
    ensures NoLowerUpper(SplitLowerUpper(s))
    decreases |s|
  {
    var r := SplitLowerUpper(s);
    if |s| >= 2 && IsLower(s[0]) && IsUpper(s[1]) {
      var t := SplitLowerUpper(s[2..]);
      SplitLowerUpperBreaks(s[2..]);
      assert r == [s[0], '_', s[1]] + t;
      forall i | 0 <= i < |r| - 1 ensures !(IsLower(r[i]) && IsUpper(r[i + 1])) {
        if i >= 3 { assert r[i] == t[i - 3] && r[i + 1] == t[i - 2]; }
      }
    } else if s != "" {
      var t := SplitLowerUpper(s[1..]);
      SplitLowerUpperBreaks(s[1..]);
      assert r == [s[0]] + t;
      forall i | 0 <= i < |r| - 1 ensures !(IsLower(r[i]) && IsUpper(r[i + 1])) {
        if i >= 1 { assert r[i] == t[i - 1] && r[i + 1] == t[i]; }
      }
    }
  }

  /** The second pass only inserts "_": every other character stays, in order. */
  lemma {:induction false} SplitUpperRunKeeps(s: string)
    ensures Inserted(s, SplitUpperRun(s))
    ensures Without('_', SplitUpperRun(s)) == Without('_', s)
    decreases |s|
  {
    if |s| >= 3 && IsUpper(s[0]) && IsUpper(s[1]) && IsLower(s[2]) {
      SplitUpperRunKeeps(s[2..]);
      InsertUnderscore(s[0], s[1], s[2..], SplitUpperRun(s[2..]));
      InsertedPair(s[0], s[1], s[2..], SplitUpperRun(s[2..]));
      assert s == [s[0], s[1]] + s[2..];
    } else if s != "" {
      SplitUpperRunKeeps(s[1..]);
      WithoutAppend('_', [s[0]], SplitUpperRun(s[1..]));
      InsertedCons(s[0], s[1..], SplitUpperRun(s[1..]));
      assert s == [s[0]] + s[1..];
    }
  }

  /** After the second pass no two uppercase letters are followed by a lowercase one. */
  lemma {:induction false} SplitUpperRunBreaks(s: string)
    ensures NoUpperUpperLower(SplitUpperRun(s))
    decreases |s|
  {
    var r := SplitUpperRun(s);
    if |s| >= 3 && IsUpper(s[0]) && IsUpper(s[1]) && IsLower(s[2]) {
      var t := SplitUpperRun(s[2..]);
      SplitUpperRunBreaks(s[2..]);
      assert r == [s[0], '_', s[1]] + t;
      forall i | 0 <= i < |r| - 2 ensures !(IsUpper(r[i]) && IsUpper(r[i + 1]) && IsLower(r[i + 2])) {
        if i >= 3 { assert r[i] == t[i - 3] && r[i + 1] == t[i - 2] && r[i + 2] == t[i - 1]; }
        else if i == 2 { assert r[3] == t[0] == s[2]; }
        else { assert r[i + 1] == '_' || r[i] == '_'; }
      }
    } else if s != "" {
      var t := SplitUpperRun(s[1..]);
      SplitUpperRunBreaks(s[1..]);
      assert r == [s[0]] + t;
      forall i | 0 <= i < |r| - 2 ensures !(IsUpper(r[i]) && IsUpper(r[i + 1]) && IsLower(r[i + 2])) {
        if i >= 1 {
          assert r[i] == t[i - 1] && r[i + 1] == t[i] && r[i + 2] == t[i + 1];
        } else {
          assert |s| >= 3;
          assert r[1] == t[0] == s[1];
          SplitUpperRunSecond(s[1..]);
          assert r[2] == t[1];
        }
      }
    }
  }

  lemma SplitUpperRunSecond(s: string)
    requires |s| >= 2
    ensures SplitUpperRun(s)[1] == '_' || SplitUpperRun(s)[1] == s[1]
  {
    if !(|s| >= 3 && IsUpper(s[0]) && IsUpper(s[1]) && IsLower(s[2])) {
      assert SplitUpperRun(s) == [s[0]] + SplitUpperRun(s[1..]);
    }
  }

  lemma {:induction false} SplitUpperRunIdentity(s: string)
    requires forall i :: 0 <= i < |s| - 1 ==> !(IsUpper(s[i]) && IsUpper(s[i + 1]))
    ensures SplitUpperRun(s) == s
    decreases |s|
  {
    if s != "" {
      SplitUpperRunIdentity(s[1..]);
    }
  }

  /** `camelToSnakeCase` is idempotent: its output has no uppercase letter, so neither
      pattern matches again and lowercasing changes nothing. */
  lemma CamelToSnakeIdempotent(s: string)
    ensures CamelToSnakeCase(CamelToSnakeCase(s)) == CamelToSnakeCase(s)
  {
    var r := CamelToSnakeCase(s);
    if r != "" {
      SplitLowerUpperNoBoundary(r);
      SplitUpperRunIdentity(r);
      LowerOfNoUpper(r);
    }
  }

  /** Both passes only insert "_": apart from underscores, the output is the lowercased input. */
  lemma CamelToSnakeKeepsLetters(s: string)
    ensures Without('_', CamelToSnakeCase(s)) == Lower(Without('_', s))
  {
    if s != "" {
      SplitLowerUpperKeeps(s);
      SplitUpperRunKeeps(SplitLowerUpper(s));
      LowerWithoutUnderscores(SplitUpperRun(SplitLowerUpper(s)));
    }
  }

  lemma {:induction false} LowerWithoutUnderscores(s: string)
    ensures Without('_', Lower(s)) == Lower(Without('_', s))
    decreases |s|
  {
    if s != "" {
      LowerWithoutUnderscores(s[1..]);
      assert Lower(s)[1..] == Lower(s[1..]);
      LowerAppend(if s[0] == '_' then "" else [s[0]], Without('_', s[1..]));
    }
  }

  lemma LowerAppend(a: string, b: string)
    ensures Lower(a + b) == Lower(a) + Lower(b)
  {
  }

  lemma {:induction false} SplitLowerUpperNoBoundary(s: string)
    requires NoLowerUpper(s)
    ensures SplitLowerUpper(s) == s
    decreases |s|
  {
    if s != "" {
      SplitLowerUpperNoBoundary(s[1..]);
    }
  }

  /** `replace(/_([a-z])/g, (_, letter) => letter.toUpperCase())`. */
  function UpperAfterUnderscore(s: string): (r: string)
    ensures |r| <= |s|
    ensures s != "" && s[0] != '_' ==> r != "" && r[0] == s[0]
  {
    if |s| >= 2 && s[0] == '_' && IsLower(s[1]) then [UpperChar(s[1])] + UpperAfterUnderscore(s[2..])
    else if s == "" then ""
    else [s[0]] + UpperAfterUnderscore(s[1..])
  }

  /** `snakeToCamelCase`. */
  function SnakeToCamelCase(s: string): (r: string)
    ensures s == "" ==> r == ""
  {
    if s == "" then "" else UpperAfterUnderscore(Lower(s))
  }

  /** A snake_case identifier whose every word after the first has at least two letters:
      lowercase letters and underscores, starting with a letter, and every "_" followed by
      two letters. */
  predicate SnakeIdent(s: string)
  {
    && s != "" && IsLower(s[0])
    && (forall i :: 0 <= i < |s| ==> IsLower(s[i]) || s[i] == '_')
    && (forall i :: 0 <= i < |s| && s[i] == '_' ==> i + 2 < |s|)
    && (forall i, j :: 0 <= i < j <= i + 2 && j < |s| && s[i] == '_' ==> IsLower(s[j]))
  }

  /** `s` with the letter after each "_" uppercased: the camel form with the underscores kept. */
  function MarkWords(s: string): (r: string)
    ensures |r| == |s|
  {
    if |s| >= 2 && s[0] == '_' then ['_', UpperChar(s[1])] + MarkWords(s[2..])
    else if s == "" then ""
    else [s[0]] + MarkWords(s[1..])
  }

  lemma SnakeIdentTail(s: string, k: nat)
    requires SnakeIdent(s) && 0 < k < |s| && IsLower(s[k])
    ensures SnakeIdent(s[k..])
  {
  }

  /** Splitting the camel form of a snake identifier at its lower-to-upper boundaries gives back the marked words. */
  lemma {:induction false} SplitOfCamel(s: string)
    requires SnakeIdent(s)
    ensures SplitLowerUpper(UpperAfterUnderscore(s)) == MarkWords(s)
    decreases |s|
  {
    if |s| == 1 {
      assert UpperAfterUnderscore(s) == s && MarkWords(s) == s;
    } else if s[1] == '_' {
      SnakeIdentTail(s, 3);
      SplitOfCamel(s[3..]);
      assert s[2] != '_' && s[3] != '_';
      SplitOfCamelAtBreak(s);
    } else {
      SnakeIdentTail(s, 1);
      SplitOfCamel(s[1..]);
      SplitOfCamelInWord(s);
    }
  }

  lemma SplitOfCamelAtBreak(s: string)
    requires |s| >= 4 && IsLower(s[0]) && s[1] == '_' && IsLower(s[2]) && IsLower(s[3])
    requires SplitLowerUpper(UpperAfterUnderscore(s[3..])) == MarkWords(s[3..])
    ensures SplitLowerUpper(UpperAfterUnderscore(s)) == MarkWords(s)
  {
    var t := s[3..];
    assert s == [s[0], '_', s[2]] + t;
    UnfoldAtBreak(s[0], s[2], t);
    var c := [s[0], UpperChar(s[2])] + UpperAfterUnderscore(t);
    assert c[2..] == UpperAfterUnderscore(t);
  }

  lemma UnfoldAtBreak(x: char, y: char, t: string)
    requires IsLower(x) && IsLower(y)
    ensures UpperAfterUnderscore([x, '_', y] + t) == [x, UpperChar(y)] + UpperAfterUnderscore(t)
    ensures MarkWords([x, '_', y] + t) == [x, '_', UpperChar(y)] + MarkWords(t)
  {
    var s := [x, '_', y] + t;
    var u := ['_', y] + t;
    assert s[1..] == u && u[2..] == t;
    UpperAtBreak(x, y, t, s, u);
    MarkAtBreak(x, y, t, s, u);
  }

  lemma UpperAtBreak(x: char, y: char, t: string, s: string, u: string)
    requires IsLower(y) && s == [x] + u && u == ['_', y] + t
    requires s[0] == x && s[1..] == u && u[0] == '_' && u[1] == y && u[2..] == t && x != '_'
    ensures UpperAfterUnderscore(s) == [x, UpperChar(y)] + UpperAfterUnderscore(t)
  {
    var rest := UpperAfterUnderscore(t);
    assert UpperAfterUnderscore(s) == [x] + UpperAfterUnderscore(u);
    assert UpperAfterUnderscore(u) == [UpperChar(y)] + rest;
    assert [x] + ([UpperChar(y)] + rest) == [x, UpperChar(y)] + rest;
  }

  lemma MarkAtBreak(x: char, y: char, t: string, s: string, u: string)
    requires s == [x] + u && u == ['_', y] + t
    requires s[0] == x && s[1..] == u && u[0] == '_' && u[1] == y && u[2..] == t && x != '_'
    ensures MarkWords(s) == [x, '_', UpperChar(y)] + MarkWords(t)
  {
    assert MarkWords(u) == ['_', UpperChar(y)] + MarkWords(t);
  }

  lemma SplitOfCamelInWord(s: string)
    requires |s| >= 2 && IsLower(s[0]) && IsLower(s[1])
    requires SplitLowerUpper(UpperAfterUnderscore(s[1..])) == MarkWords(s[1..])
    ensures SplitLowerUpper(UpperAfterUnderscore(s)) == MarkWords(s)
  {
    var c := UpperAfterUnderscore(s);
    var u := UpperAfterUnderscore(s[1..]);
    assert c == [s[0]] + u;
    assert c[1..] == u && c[1] == s[1];
    assert SplitLowerUpper(c) == [s[0]] + SplitLowerUpper(u);
  }

  /** In the marked form every uppercase letter directly follows a "_". */
  lemma {:induction false} MarkWordsUpperAfterUnderscore(s: string)
    requires forall i :: 0 <= i < |s| ==> IsLower(s[i]) || s[i] == '_'
    ensures forall i :: 0 <= i < |s| && IsUpper(MarkWords(s)[i]) ==> i > 0 && MarkWords(s)[i - 1] == '_'
    decreases |s|
  {
    var m := MarkWords(s);
    if |s| >= 2 && s[0] == '_' {
      var t := s[2..];
      MarkWordsUpperAfterUnderscore(t);
      assert m == ['_', UpperChar(s[1])] + MarkWords(t);
      forall i | 2 <= i < |s| && IsUpper(m[i]) ensures m[i - 1] == '_' {
        assert m[i] == MarkWords(t)[i - 2];
        assert i - 2 > 0 && m[i - 1] == MarkWords(t)[i - 3];
      }
    } else if s != "" {
      var t := s[1..];
      MarkWordsUpperAfterUnderscore(t);
      assert m == [s[0]] + MarkWords(t);
      forall i | 1 <= i < |s| && IsUpper(m[i]) ensures m[i - 1] == '_' {
        assert m[i] == MarkWords(t)[i - 1];
        assert i - 1 > 0 && m[i - 1] == MarkWords(t)[i - 2];
      }
    }
  }

  lemma {:induction false} LowerMarkWords(s: string)
    requires forall i :: 0 <= i < |s| ==> IsLower(s[i]) || s[i] == '_'
    ensures Lower(MarkWords(s)) == s
    decreases |s|
  {
    if |s| >= 2 && s[0] == '_' {
      LowerMarkWords(s[2..]);
      assert s == [s[0], s[1]] + s[2..];
    } else if s != "" {
      LowerMarkWords(s[1..]);
      assert s == [s[0]] + s[1..];
    }
  }

  /** Round trip: the camel form of a snake identifier converts back to that identifier. */
  lemma SnakeCamelRoundTrip(s: string)
    requires SnakeIdent(s)
    ensures CamelToSnakeCase(SnakeToCamelCase(s)) == s
  {
    LowerOfNoUpper(s);
    var c := UpperAfterUnderscore(s);
    assert SnakeToCamelCase(s) == c;
    SplitOfCamel(s);
    MarkWordsUpperAfterUnderscore(s);
    var m := MarkWords(s);
    assert forall i :: 0 <= i < |m| - 1 ==> !(IsUpper(m[i]) && IsUpper(m[i + 1]));
    SplitUpperRunIdentity(m);
    LowerMarkWords(s);
  }

  /** `str.split("_")`: the maximal runs between underscores, at least one (possibly empty). */
  function SplitWords(s: string): (ws: seq<string>)
    ensures |ws| >= 1
    ensures forall k :: 0 <= k < |ws| ==> '_' !in ws[k]
  {
    if s == "" then [""]
    else
      var rest := SplitWords(s[1..]);
      if s[0] == '_' then [""] + rest else [[s[0]] + rest[0]] + rest[1..]
  }

  /** `words.join("_")`. */
  function JoinWords(ws: seq<string>): (r: string)
    requires |ws| >= 1
  {
    if |ws| == 1 then ws[0] else ws[0] + "_" + JoinWords(ws[1..])
  }

  /** Splitting on "_" and joining with "_" gives the key back. */
  lemma {:induction false} SplitJoinWords(s: string)
    ensures JoinWords(SplitWords(s)) == s
    decreases |s|
  {
    if s != "" {
      var rest := SplitWords(s[1..]);
      SplitJoinWords(s[1..]);
      if s[0] == '_' {
        assert JoinWords([""] + rest) == "" + "_" + JoinWords(rest);
      } else if |rest| == 1 {
        assert SplitWords(s) == [[s[0]] + rest[0]];
      } else {
        var ws := SplitWords(s);
        assert ws[1..] == rest[1..];
        assert JoinWords(rest) == rest[0] + "_" + JoinWords(rest[1..]);
      }
    }
  }

  /** A word after the first: its first character uppercased and the rest lowercased. */
  function Capitalize(w: string): (r: string)
    ensures |r| == |w|
    ensures w != "" ==> r[0] == UpperChar(w[0])
    ensures forall i :: 1 <= i < |w| ==> r[i] == LowerChar(w[i])
  {
    if w == "" then "" else [UpperChar(w[0])] + Lower(w[1..])
  }

  function CapitalizeAll(ws: seq<string>): (r: string)
  {
    if ws == [] then "" else Capitalize(ws[0]) + CapitalizeAll(ws[1..])
  }

  /** `camelCaseKey`: the first word lowercased, every later word capitalized, joined without separator.
      The result has no "_", and a key without "_" is only lowercased. */
  function CamelCaseKey(s: string): (r: string)
    ensures '_' !in r
    ensures '_' !in s ==> r == Lower(s)
  {
    var ws := SplitWords(s);
    CapitalizeAllNoUnderscore(ws[1..]);
    assert '_' !in Lower(ws[0]);
    if '_' in s then
      Lower(ws[0]) + CapitalizeAll(ws[1..])
    else
      NoUnderscoreOneWord(s);
      Lower(ws[0]) + CapitalizeAll(ws[1..])
  }

  lemma {:induction false} CapitalizeAllNoUnderscore(ws: seq<string>)
    requires forall k :: 0 <= k < |ws| ==> '_' !in ws[k]
    ensures '_' !in CapitalizeAll(ws)
    decreases |ws|
  {
    if ws != [] {
      CapitalizeAllNoUnderscore(ws[1..]);
      var w := ws[0];
      if w != "" {
        assert Capitalize(w)[0] == UpperChar(w[0]) && w[0] != '_';
        assert forall i :: 1 <= i < |w| ==> Capitalize(w)[i] == LowerChar(w[i]);
      }
      assert '_' !in Capitalize(w);
    }
  }

  lemma {:induction false} NoUnderscoreOneWord(s: string)
    requires '_' !in s
    ensures SplitWords(s) == [s]
    decreases |s|
  {
    if s != "" {
      assert s[0] != '_' && '_' !in s[1..];
      NoUnderscoreOneWord(s[1..]);
      assert s == [s[0]] + s[1..];
    }
  }

  /** Lowercase letters and underscores, every "_" directly followed by a letter. */
  predicate LowerSnake(s: string)
  {
    && (forall i :: 0 <= i < |s| ==> IsLower(s[i]) || s[i] == '_')
    && (forall i :: 0 <= i < |s| && s[i] == '_' ==> i + 1 < |s|)
    && (forall i, j :: 0 <= i < |s| && j == i + 1 < |s| && s[i] == '_' ==> IsLower(s[j]))
  }

  /** On lowercase snake keys the regex conversion and the word conversion agree. */
  lemma {:induction false} UpperAfterUnderscoreByWords(s: string)
    requires LowerSnake(s)
    ensures UpperAfterUnderscore(s) == ByWords(s)
    decreases |s|
  {
    if s != "" && s[0] == '_' {
      LowerSnakeTail(s, 2);
      UpperAfterUnderscoreByWords(s[2..]);
      ByWordsAtUnderscore(s);
    } else if s != "" {
      LowerSnakeTail(s, 1);
      UpperAfterUnderscoreByWords(s[1..]);
      ByWordsAtLetter(s);
    }
  }

  /** The first word lowercased followed by the later words capitalized. */
  function ByWords(s: string): string
  {
    Lower(SplitWords(s)[0]) + CapitalizeAll(SplitWords(s)[1..])
  }

  lemma LowerSnakeTail(s: string, k: nat)
    requires LowerSnake(s) && k <= |s|
    ensures LowerSnake(s[k..])
  {
    var t := s[k..];
    forall i, j | 0 <= i < |t| && j == i + 1 < |t| && t[i] == '_' ensures IsLower(t[j]) {
      assert t[i] == s[i + k] && t[j] == s[j + k];
    }
  }

  lemma ByWordsAtUnderscore(s: string)
    requires |s| >= 2 && s[0] == '_' && IsLower(s[1])
    requires UpperAfterUnderscore(s[2..]) == ByWords(s[2..])
    ensures UpperAfterUnderscore(s) == ByWords(s)
  {
    var t := s[2..];
    assert s == ['_', s[1]] + t;
    UnderscoreWordStep(s[1], t);
    ConsAssoc(UpperChar(s[1]), Lower(SplitWords(t)[0]), CapitalizeAll(SplitWords(t)[1..]), UpperAfterUnderscore(t));
  }

  lemma ByWordsAtLetter(s: string)
    requires |s| >= 1 && IsLower(s[0])
    requires UpperAfterUnderscore(s[1..]) == ByWords(s[1..])
    ensures UpperAfterUnderscore(s) == ByWords(s)
  {
    var t := s[1..];
    assert s == [s[0]] + t;
    LetterWordStep(s[0], t);
    ConsAssoc(s[0], Lower(SplitWords(t)[0]), CapitalizeAll(SplitWords(t)[1..]), UpperAfterUnderscore(t));
  }

  lemma ConsAssoc(c: char, a: string, b: string, u: string)
    requires u == a + b
    ensures [c] + u == ([c] + a) + b
  {
  }

  lemma LetterWordStep(x: char, t: string)
    requires IsLower(x)
    ensures UpperAfterUnderscore([x] + t) == [x] + UpperAfterUnderscore(t)
    ensures SplitWords([x] + t) == [[x] + SplitWords(t)[0]] + SplitWords(t)[1..]
    ensures ByWords([x] + t) == ([x] + Lower(SplitWords(t)[0])) + CapitalizeAll(SplitWords(t)[1..])
  {
    assert ([x] + t)[1..] == t;
    var ws := SplitWords([x] + t);
    assert ws[0] == [x] + SplitWords(t)[0];
    assert ws[1..] == SplitWords(t)[1..];
    assert ([x] + SplitWords(t)[0])[1..] == SplitWords(t)[0];
  }

  lemma UnderscoreWordStep(y: char, t: string)
    requires IsLower(y)
    ensures UpperAfterUnderscore(['_', y] + t) == [UpperChar(y)] + UpperAfterUnderscore(t)
    ensures ByWords(['_', y] + t) == ([UpperChar(y)] + Lower(SplitWords(t)[0])) + CapitalizeAll(SplitWords(t)[1..])
  {
    var s := ['_', y] + t;
    assert s[2..] == t;
    assert s[1..] == [y] + t;
    LetterWordStep(y, t);
    assert SplitWords(s) == [""] + SplitWords([y] + t);
    var w := [y] + SplitWords(t)[0];
    var ws := SplitWords(s)[1..];
    assert ws == [w] + SplitWords(t)[1..];
    assert ws[1..] == SplitWords(t)[1..];
    assert w[1..] == SplitWords(t)[0];
    assert Capitalize(w) == [UpperChar(y)] + Lower(SplitWords(t)[0]);
    assert CapitalizeAll(ws) == Capitalize(w) + CapitalizeAll(SplitWords(t)[1..]);
  }

  /** On snake identifiers `camelCaseKey` and `snakeToCamelCase` give the same key, so a camelCase
      key that `camelToSnakeCase` produced a snake identifier from comes back unchanged. */
  lemma CamelCaseKeyRoundTrip(s: string)
    requires SnakeIdent(s)
    ensures CamelCaseKey(s) == SnakeToCamelCase(s)
    ensures CamelCaseKey(CamelToSnakeCase(SnakeToCamelCase(s))) == SnakeToCamelCase(s)
  {
    LowerOfNoUpper(s);
    assert LowerSnake(s);
    UpperAfterUnderscoreByWords(s);
    SnakeCamelRoundTrip(s);
  }

  /** `convertTags`: an array-valued `tags` becomes the ", "-joined string; everything else is kept.
      The key layout never changes, and every key other than `tags` reads as before. */
  function TagsJoined(e: Entries): (r: Entries)
    ensures Keys(r) == Keys(e)
    ensures Get(e, "tags").Some? && Get(e, "tags").value.Arr? ==>
      Get(r, "tags") == Some(Str(Join(Get(e, "tags").value.items, ", ")))
    ensures !(Get(e, "tags").Some? && Get(e, "tags").value.Arr?) ==> r == e
    ensures forall k :: k != "tags" ==> Get(r, k) == Get(e, k)
  {
    match Get(e, "tags")
    case Some(Arr(items)) =>
      PutGetAll(e, "tags", Str(Join(items, ", ")));
      Put(e, "tags", Str(Join(items, ", ")))
    case _ => e
  }

  /** Converting twice is converting once: the joined `tags` is a string, which is left alone. */
  lemma TagsJoinedIdempotent(e: Entries)
    ensures TagsJoined(TagsJoined(e)) == TagsJoined(e)
  {
    var r := TagsJoined(e);
    assert !(Get(r, "tags").Some? && Get(r, "tags").value.Arr?);
  }

  /** A mutable plain object. */
  class Record {
    var entries: Entries

    constructor (e: Entries)
      ensures entries == e
    {
      entries := e;
    }

    /** `convertTags(obj)`: rewrites `obj.tags` in place and returns nothing. */
    method ConvertTags()
      modifies this
      ensures entries == TagsJoined(old(entries))
    {
      var tags := Get(entries, "tags");
      if tags.Some? && tags.value.Arr? {
        entries := Put(entries, "tags", Str(Join(tags.value.items, ", ")));
      }
    }
  }
}
