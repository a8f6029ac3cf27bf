/** The greedy line filling shared by the lyrics-only and ChordPro
    sections of `export/ccli_exporter.py`: a token starts a new line when
    the current line is non-empty and adding a space and the token would
    make it longer than the maximum. */
module CcliWrap {
  import opened Common

  /** The loop's variables: finished lines and the line being filled. */
  datatype WrapState = WrapState(lines: seq<string>, current: string)

  /** One pass of the loop for token `tok`. */
  function WrapStep(st: WrapState, tok: string, maxLen: int): WrapState {
    if st.current != "" && |st.current + " " + tok| > maxLen then WrapState(st.lines + [st.current], tok)
    else if st.current != "" then WrapState(st.lines, st.current + " " + tok)
    else WrapState(st.lines, tok)
  }

  /** The variables after the first n tokens. */
  function WrapFold(tokens: seq<string>, maxLen: int, n: nat): WrapState
    requires n <= |tokens|
  {
    if n == 0 then WrapState([], "") else WrapStep(WrapFold(tokens, maxLen, n - 1), tokens[n - 1], maxLen)
  }

  /** The lines written: the finished ones and a non-empty last one. */
  function Wrapped(tokens: seq<string>, maxLen: int): seq<string> {
    var st := WrapFold(tokens, maxLen, |tokens|);
    if st.current != "" then st.lines + [st.current] else st.lines
  }

  /** The body of the filling loop for one token, on a list of lines whose
      first h are a header the loop does not touch. */
  method AddToken(lines: seq<string>, current: string, tok: string, maxLen: int, ghost h: nat)
    returns (lines': seq<string>, current': string)
    requires h <= |lines|
    ensures h <= |lines'| && lines'[..h] == lines[..h]
    ensures WrapState(lines'[h..], current') == WrapStep(WrapState(lines[h..], current), tok, maxLen)
  {
    lines' := lines;
    if current != "" && |current + " " + tok| > maxLen {
      assert (lines + [current])[h..] == lines[h..] + [current];
      lines' := lines + [current];
      current' := tok;
    } else if current != "" {
      current' := current + " " + tok;
    } else {
      current' := tok;
    }
  }

  /** After the loop, appending a non-empty current line gives the header
      followed by the wrapped lines. */
  lemma FinishLines(header: seq<string>, lines: seq<string>, current: string, tokens: seq<string>, maxLen: int)
    requires |header| <= |lines| && lines[..|header|] == header
    requires WrapFold(tokens, maxLen, |tokens|) == WrapState(lines[|header|..], current)
    ensures (if current != "" then lines + [current] else lines) == header + Wrapped(tokens, maxLen)
  {
    assert lines == header + lines[|header|..];
  }

  /** A line that fits, or one token on its own. */
  predicate Fits(line: string, tokens: seq<string>, maxLen: int) {
    |line| <= maxLen || line in tokens
  }

  lemma {:induction false} WrapFoldShape(tokens: seq<string>, maxLen: int, n: nat)
    requires n <= |tokens|
    ensures var st := WrapFold(tokens, maxLen, n);
            (forall k :: 0 <= k < |st.lines| ==> st.lines[k] != "" && Fits(st.lines[k], tokens, maxLen))
            && (st.current == "" || Fits(st.current, tokens, maxLen))
  {
    if n > 0 {
      WrapFoldShape(tokens, maxLen, n - 1);
      assert tokens[n - 1] in tokens;
    }
  }

  /** No line is empty, and each fits within the maximum unless it is a
      single token. */
  lemma WrappedShape(tokens: seq<string>, maxLen: int)
    ensures var ls := Wrapped(tokens, maxLen);
            forall k :: 0 <= k < |ls| ==> ls[k] != "" && Fits(ls[k], tokens, maxLen)
  {
    WrapFoldShape(tokens, maxLen, |tokens|);
  }

  lemma {:induction false} JoinSnoc(xs: seq<string>, y: string, sep: string)
    ensures Join(xs + [y], sep) == if xs == [] then y else Join(xs, sep) + sep + y
  {
    if xs != [] {
      if |xs| == 1 {
        assert xs + [y] == [xs[0], y];
        assert [xs[0], y][1..] == [y];
      } else {
        assert (xs + [y])[1..] == xs[1..] + [y];
        JoinSnoc(xs[1..], y, sep);
      }
    }
  }

  predicate NoEmpty(tokens: seq<string>) {
    forall i :: 0 <= i < |tokens| ==> tokens[i] != ""
  }

  lemma {:induction false} WrapFoldJoin(tokens: seq<string>, maxLen: int, n: nat)
    requires n <= |tokens| && NoEmpty(tokens)
    ensures var st := WrapFold(tokens, maxLen, n);
            (n == 0 <==> st.current == "")
            && (n > 0 ==> Join(st.lines + [st.current], " ") == Join(tokens[..n], " "))
            && (n == 0 ==> st.lines == [])
  {
    if n > 0 {
      WrapFoldJoin(tokens, maxLen, n - 1);
      var st := WrapFold(tokens, maxLen, n - 1);
      var tok := tokens[n - 1];
      assert tokens[..n] == tokens[..n - 1] + [tok];
      if n - 1 == 0 {
        assert tokens[..n] == [tok];
      } else if |st.current + " " + tok| > maxLen {
        JoinAfterBreak(st.lines, st.current, tok, tokens[..n - 1]);
      } else {
        JoinAfterExtend(st.lines, st.current, tok, tokens[..n - 1]);
      }
    }
  }

  /** Starting a new line with a token keeps the joined text. */
  lemma JoinAfterBreak(lines: seq<string>, cur: string, tok: string, pre: seq<string>)
    requires pre != [] && Join(lines + [cur], " ") == Join(pre, " ")
    ensures Join(lines + [cur] + [tok], " ") == Join(pre + [tok], " ")
  {
    JoinSnoc(lines + [cur], tok, " ");
    JoinSnoc(pre, tok, " ");
  }

  /** Adding a token to the current line keeps the joined text. */
  lemma JoinAfterExtend(lines: seq<string>, cur: string, tok: string, pre: seq<string>)
    requires pre != [] && Join(lines + [cur], " ") == Join(pre, " ")
    ensures Join(lines + [cur + " " + tok], " ") == Join(pre + [tok], " ")
  {
    JoinSnoc(lines, cur + " " + tok, " ");
    JoinSnoc(lines, cur, " ");
    JoinSnoc(pre, tok, " ");
    if lines != [] {
      ConcatAssoc(Join(lines, " ") + " ", cur, " " + tok);
    }
  }

  /** Without empty tokens, joining the lines with spaces gives back the
      tokens joined with spaces: nothing is lost or reordered. */
  lemma WrappedJoin(tokens: seq<string>, maxLen: int)
    requires NoEmpty(tokens)
    ensures Join(Wrapped(tokens, maxLen), " ") == Join(tokens, " ")
  {
    WrapFoldJoin(tokens, maxLen, |tokens|);
    assert tokens[..|tokens|] == tokens;
  }

  lemma {:induction false} WrapFoldGreedy(tokens: seq<string>, maxLen: int, n: nat)
    requires n <= |tokens| && NoEmpty(tokens)
    ensures var st := WrapFold(tokens, maxLen, n);
            (forall k :: 0 <= k < |st.lines| - 1 ==> |st.lines[k]| + 1 + |st.lines[k + 1]| > maxLen)
            && (st.lines != [] ==> st.current != "" && |st.lines[|st.lines| - 1]| + 1 + |st.current| > maxLen)
            && (n > 0 ==> st.current != "")
  {
    if n > 0 {
      WrapFoldGreedy(tokens, maxLen, n - 1);
    }
  }

  /** The filling is greedy: no two neighbouring lines would fit on one. */
  lemma WrappedGreedy(tokens: seq<string>, maxLen: int)
    requires NoEmpty(tokens)
    ensures var ls := Wrapped(tokens, maxLen);
            forall k :: 0 <= k < |ls| - 1 ==> |ls[k]| + 1 + |ls[k + 1]| > maxLen
  {
    WrapFoldGreedy(tokens, maxLen, |tokens|);
  }
}
