/**
 * The handful of JavaScript string operations the services and the web pages
 * rely on, over strings as sequences of characters (`seq<char>`):
 * `trim()`-emptiness, `split` on one character, `split(/\s+/)`,
 * `toLowerCase()` and `startsWith`.
 */
module Text {

  /** The characters ECMAScript's `trim()` and the regular expression `\s`
      treat as white space: WhiteSpace and LineTerminator code points. */
  predicate IsSpace(c: char)
  {
    c == '\t' || c == '\n' || c == '\U{000B}' || c == '\U{000C}' || c == '\r' || c == ' '
    || c == '\U{00A0}' || c == '\U{1680}' || ('\U{2000}' <= c <= '\U{200A}')
    || c == '\U{2028}' || c == '\U{2029}' || c == '\U{202F}' || c == '\U{205F}'
    || c == '\U{3000}' || c == '\U{FEFF}'
  }

  /** `s.trim() === ''`: every character of `s` is white space. */
  predicate IsBlank(s: string)
  {
    forall i :: 0 <= i < |s| ==> IsSpace(s[i])
  }

  /** `s.startsWith(prefix)`. */
  predicate StartsWith(s: string, prefix: string)
  {
    prefix <= s
  }

  /** `s.split(sep)` for a one-character separator: the maximal pieces between
      occurrences of `sep`, always at least one piece. */
  function Split(s: string, sep: char): (pieces: seq<string>)
    ensures |pieces| >= 1
    ensures |pieces| == 1 ==> pieces[0] == s
  {
    if |s| == 0 then [""]
    else
      var rest := Split(s[1..], sep);
      if s[0] == sep then [""] + rest
      else [[s[0]] + rest[0]] + rest[1..]
  }

  /** The first piece of a split is a prefix of the string. */
  lemma {:induction false} SplitFirstIsPrefix(s: string, sep: char)
    ensures Split(s, sep)[0] <= s
  {
    if |s| > 0 && s[0] != sep {
      SplitFirstIsPrefix(s[1..], sep);
      var first := Split(s[1..], sep)[0];
      assert [s[0]] + first == s[..|first| + 1];
    }
  }

  /** `pieces.join(sep)` for a non-empty array of pieces. */
  function Join(pieces: seq<string>, sep: char): string
    requires |pieces| >= 1
  {
    if |pieces| == 1 then pieces[0] else pieces[0] + [sep] + Join(pieces[1..], sep)
  }

  /** No piece returned by `split` contains the separator. */
  lemma {:induction false} SplitPiecesAvoidSeparator(s: string, sep: char)
    ensures forall p :: p in Split(s, sep) ==> sep !in p
  {
    if |s| > 0 {
      SplitPiecesAvoidSeparator(s[1..], sep);
      var rest := Split(s[1..], sep);
      if s[0] != sep {
        assert sep !in rest[0];
        forall p | p in rest[1..] ensures sep !in p {
          assert p in rest;
        }
      }
    }
  }

  /** Joining the pieces again gives back the string: `split` loses nothing. */
  lemma {:induction false} JoinSplit(s: string, sep: char)
    ensures Join(Split(s, sep), sep) == s
  {
    if |s| > 0 {
      JoinSplit(s[1..], sep);
      var rest := Split(s[1..], sep);
      if s[0] == sep {
        assert s == [sep] + s[1..];
      } else if |rest| == 1 {
        assert s == [s[0]] + s[1..];
      } else {
        assert rest == [rest[0]] + rest[1..];
        assert Join(rest, sep) == rest[0] + [sep] + Join(rest[1..], sep);
        assert s == [s[0]] + s[1..];
      }
    }
  }

  /** Splitting a string that starts with a piece free of the separator. */
  lemma {:induction false} SplitAfterPiece(p: string, t: string, sep: char)
    requires sep !in p
    ensures Split(p + [sep] + t, sep) == [p] + Split(t, sep)
  {
    if |p| == 0 {
      assert p + [sep] + t == [sep] + t;
      assert ([sep] + t)[1..] == t;
    } else {
      SplitAfterPiece(p[1..], t, sep);
      assert (p + [sep] + t)[1..] == p[1..] + [sep] + t;
      assert [p[0]] + p[1..] == p;
    }
  }

  /** Splitting a joined array of separator-free pieces gives the pieces back. */
  lemma {:induction false} SplitJoin(pieces: seq<string>, sep: char)
    requires |pieces| >= 1
    requires forall p :: p in pieces ==> sep !in p
    ensures Split(Join(pieces, sep), sep) == pieces
  {
    if |pieces| == 1 {
      SplitWithoutSeparator(pieces[0], sep);
    } else {
      assert pieces[0] in pieces;
      forall p | p in pieces[1..] ensures sep !in p {
        assert p in pieces;
      }
      SplitJoin(pieces[1..], sep);
      SplitAfterPiece(pieces[0], Join(pieces[1..], sep), sep);
      assert pieces == [pieces[0]] + pieces[1..];
    }
  }

  /** A string without the separator is a single piece. */
  lemma {:induction false} SplitWithoutSeparator(s: string, sep: char)
    requires sep !in s
    ensures Split(s, sep) == [s]
  {
    if |s| > 0 {
      assert sep !in s[1..] by {
        forall i | 0 <= i < |s[1..]| ensures s[1..][i] != sep {
          assert s[1..][i] == s[i + 1];
        }
      }
      SplitWithoutSeparator(s[1..], sep);
      assert [s[0]] + s[1..] == s;
    }
  }

  /** Splitting `a + sep + b` splits `a` and `b` on their own and concatenates
      the results: a separator is a hard boundary between pieces. */
  lemma SplitAtSeparator(a: string, b: string, sep: char)
    ensures Split(a + [sep] + b, sep) == Split(a, sep) + Split(b, sep)
  {
    var pa, pb := Split(a, sep), Split(b, sep);
    SplitPiecesAvoidSeparator(a, sep);
    SplitPiecesAvoidSeparator(b, sep);
    JoinSplit(a, sep);
    JoinSplit(b, sep);
    JoinAppend(pa, pb, sep);
    forall p | p in pa + pb ensures sep !in p {
      assert p in pa || p in pb;
    }
    SplitJoin(pa + pb, sep);
  }

  /** Joining two non-empty arrays of pieces puts one separator between them. */
  lemma {:induction false} JoinAppend(xs: seq<string>, ys: seq<string>, sep: char)
    requires |xs| >= 1 && |ys| >= 1
    ensures Join(xs + ys, sep) == Join(xs, sep) + [sep] + Join(ys, sep)
  {
    if |xs| == 1 {
      assert (xs + ys)[1..] == ys;
    } else {
      JoinAppend(xs[1..], ys, sep);
      assert (xs + ys)[1..] == xs[1..] + ys;
    }
  }

  /** `s.split(/\s+/)`: the pieces between maximal runs of white space. A
      leading run yields an empty first piece and a trailing run an empty
      last piece, as in JavaScript. */
  function SplitRuns(s: string): (pieces: seq<string>)
    ensures |pieces| >= 1
  {
    if |s| == 0 then [""]
    else
      var rest := SplitRuns(s[1..]);
      if IsSpace(s[0]) then
        (if |s| > 1 && IsSpace(s[1]) then rest else [""] + rest)
      else [[s[0]] + rest[0]] + rest[1..]
  }

  /** No piece of `split(/\s+/)` contains white space. */
  lemma {:induction false} SplitRunsPiecesHaveNoSpace(s: string)
    ensures forall p, i :: p in SplitRuns(s) && 0 <= i < |p| ==> !IsSpace(p[i])
  {
    if |s| > 0 {
      SplitRunsPiecesHaveNoSpace(s[1..]);
      var rest := SplitRuns(s[1..]);
      if !IsSpace(s[0]) {
        forall p, i | p in SplitRuns(s) && 0 <= i < |p| ensures !IsSpace(p[i]) {
          if p == [s[0]] + rest[0] {
            if i > 0 { assert p[i] == rest[0][i - 1]; }
          } else {
            assert p in rest[1..];
            assert p in rest;
          }
        }
      }
    }
  }

  /** A field of non-space characters in front of a string that is empty or
      starts with white space extends the first piece of that string. */
  lemma {:induction false} SplitRunsAfterField(f: string, t: string)
    requires forall i :: 0 <= i < |f| ==> !IsSpace(f[i])
    requires |t| == 0 || IsSpace(t[0])
    ensures SplitRuns(f + t) == [f + SplitRuns(t)[0]] + SplitRuns(t)[1..]
  {
    if |f| > 0 {
      SplitRunsAfterField(f[1..], t);
      assert (f + t)[1..] == f[1..] + t;
      assert [f[0]] + (f[1..] + SplitRuns(t)[0]) == f + SplitRuns(t)[0];
    } else {
      assert f + t == t && f + SplitRuns(t)[0] == SplitRuns(t)[0];
      assert SplitRuns(t) == [SplitRuns(t)[0]] + SplitRuns(t)[1..];
    }
  }

  /** Fields separated by gaps, `fields[0] + gaps[0] + fields[1] + ... + fields[n]`:
      the shape of a line of a column-aligned table. */
  function JoinGaps(fields: seq<string>, gaps: seq<string>): string
    requires |fields| == |gaps| + 1
  {
    if |gaps| == 0 then fields[0] else fields[0] + gaps[0] + JoinGaps(fields[1..], gaps[1..])
  }

  /** A non-empty run of white space in front of a string that does not start
      with white space opens a new piece, however long the run is. */
  lemma {:induction false} SplitRunsAfterGap(g: string, t: string)
    requires |g| > 0 && IsBlank(g)
    requires |t| == 0 || !IsSpace(t[0])
    ensures SplitRuns(g + t) == [""] + SplitRuns(t)
  {
    assert (g + t)[1..] == g[1..] + t;
    if |g| > 1 {
      SplitRunsAfterGap(g[1..], t);
      assert (g[1..] + t)[0] == g[1];
    }
  }

  /** Fields that are non-empty and free of white space, separated by any
      non-empty runs of white space, are split back into exactly those fields
      by `split(/\s+/)`. */
  lemma {:induction false} SplitRunsJoinGaps(fields: seq<string>, gaps: seq<string>)
    requires |fields| == |gaps| + 1
    requires forall k :: 0 <= k < |fields| ==> |fields[k]| > 0
    requires forall k, i :: 0 <= k < |fields| && 0 <= i < |fields[k]| ==> !IsSpace(fields[k][i])
    requires forall k :: 0 <= k < |gaps| ==> |gaps[k]| > 0 && IsBlank(gaps[k])
    ensures SplitRuns(JoinGaps(fields, gaps)) == fields
  {
    var f := fields[0];
    if |gaps| == 0 {
      SplitRunsAfterField(f, "");
      assert f + "" == f;
    } else {
      var tail, rest := fields[1..], gaps[1..];
      assert forall k :: 0 <= k < |tail| ==> tail[k] == fields[k + 1];
      assert forall k :: 0 <= k < |rest| ==> rest[k] == gaps[k + 1];
      SplitRunsJoinGaps(tail, rest);
      var t := JoinGaps(tail, rest);
      assert |t| > 0 && t[0] == tail[0][0] by { JoinGapsStartsWithFirst(tail, rest); }
      SplitRunsAfterGap(gaps[0], t);
      SplitRunsAfterField(f, gaps[0] + t);
      assert JoinGaps(fields, gaps) == f + (gaps[0] + t);
      assert f + "" == f && fields == [f] + tail;
    }
  }

  /** Fields joined by gaps start with the first field. */
  lemma JoinGapsStartsWithFirst(fields: seq<string>, gaps: seq<string>)
    requires |fields| == |gaps| + 1
    ensures fields[0] <= JoinGaps(fields, gaps)
  {
  }

  /** A character that occurs in no field and in no gap does not occur in their join. */
  lemma {:induction false} JoinGapsAvoids(fields: seq<string>, gaps: seq<string>, c: char)
    requires |fields| == |gaps| + 1
    requires forall k :: 0 <= k < |fields| ==> c !in fields[k]
    requires forall k :: 0 <= k < |gaps| ==> c !in gaps[k]
    ensures c !in JoinGaps(fields, gaps)
  {
    if |gaps| > 0 {
      var tail, rest := fields[1..], gaps[1..];
      assert forall k :: 0 <= k < |tail| ==> tail[k] == fields[k + 1];
      assert forall k :: 0 <= k < |rest| ==> rest[k] == gaps[k + 1];
      JoinGapsAvoids(tail, rest, c);
    }
  }

  /** `s.toLowerCase()` on the ASCII range: 'A'..'Z' become 'a'..'z'. */
  function ToLower(s: string): (r: string)
    ensures |r| == |s|
    ensures forall i :: 0 <= i < |s| ==> r[i] == LowerChar(s[i])
  {
    if |s| == 0 then "" else [LowerChar(s[0])] + ToLower(s[1..])
  }

  function LowerChar(c: char): char
  {
    if 'A' <= c <= 'Z' then (c as int - 'A' as int + 'a' as int) as char else c
  }

  /** `s.trimStart()`: drops the leading white space. */
  function TrimStart(s: string): (r: string)
    ensures |r| <= |s| && r == s[|s| - |r|..]
    ensures |r| == 0 || !IsSpace(r[0])
    ensures IsBlank(s[..|s| - |r|])
  {
    if |s| > 0 && IsSpace(s[0]) then
      var r := TrimStart(s[1..]);
      assert s[..|s| - |r|] == [s[0]] + s[1..][..|s[1..]| - |r|];
      r
    else s
  }
}
