/** String handling of the in-process command runner: splitting a command
    line on one separator character (`args.split(' ')`), the inverse join,
    and the separator-free concatenation of output chunks (`output.join('')`). */
module Tokens {

  /** JavaScript's `s.split(sep)` for a one-character separator: every
      occurrence of `sep` ends a token, so two separators in a row give an
      empty token and the empty string gives one empty token. */
  function Split(s: string, sep: char): (r: seq<string>)
    ensures |r| >= 1
    ensures forall i :: 0 <= i < |r| ==> sep !in r[i]
    decreases |s|
  {
    if |s| == 0 then [""]
    else
      var rest := Split(s[1..], sep);
      if s[0] == sep then [""] + rest
      else [[s[0]] + rest[0]] + rest[1..]
  }

  /** JavaScript's `tokens.join(sep)`: the tokens with one separator between
      each two neighbours. */
  function Join(tokens: seq<string>, sep: char): (r: string)
    decreases |tokens|
  {
    if |tokens| == 0 then ""
    else if |tokens| == 1 then tokens[0]
    else tokens[0] + [sep] + Join(tokens[1..], sep)
  }

  /** Joining the pieces of a split gives back the original string: splitting
      loses nothing, not even repeated separators. */
  lemma {:induction false} JoinOfSplit(s: string, sep: char)
    ensures Join(Split(s, sep), sep) == s
    decreases |s|
  {
    if |s| > 0 {
      var rest := Split(s[1..], sep);
      JoinOfSplit(s[1..], sep);
      if s[0] != sep && |rest| > 1 {
        assert Split(s, sep)[1..] == rest[1..];
        assert Join(rest, sep) == rest[0] + [sep] + Join(rest[1..], sep);
      }
    }
  }

  /** Splitting a string that starts with a separator-free token `t` puts `t`
      in front of the first piece of what follows it. */
  lemma {:induction false} SplitAfterToken(t: string, u: string, sep: char)
    requires sep !in t
    ensures Split(t + u, sep) == [t + Split(u, sep)[0]] + Split(u, sep)[1..]
    decreases |t|
  {
    if |t| == 0 {
      var r := Split(u, sep);
      assert t + u == u && t + r[0] == r[0];
      assert r == [r[0]] + r[1..];
    } else {
      assert (t + u)[0] == t[0];
      assert (t + u)[1..] == t[1..] + u;
      SplitAfterToken(t[1..], u, sep);
      assert [t[0]] + (t[1..] + Split(u, sep)[0]) == t + Split(u, sep)[0];
    }
  }

  /** A string that begins with the separator splits into an empty token
      followed by the split of the rest. */
  lemma SplitAfterSeparator(w: string, sep: char)
    ensures Split([sep] + w, sep) == [""] + Split(w, sep)
  {
  }

  /** Splitting a join of separator-free tokens gives back exactly those
      tokens: with `JoinOfSplit`, `Split` and `Join` are mutually inverse. */
  lemma {:induction false} SplitOfJoin(tokens: seq<string>, sep: char)
    requires |tokens| >= 1
    requires forall i :: 0 <= i < |tokens| ==> sep !in tokens[i]
    ensures Split(Join(tokens, sep), sep) == tokens
    decreases |tokens|
  {
    if |tokens| == 1 {
      SplitAfterToken(tokens[0], "", sep);
      assert tokens[0] + "" == tokens[0];
    } else {
      var w := Join(tokens[1..], sep);
      SplitOfJoin(tokens[1..], sep);
      assert Join(tokens, sep) == tokens[0] + ([sep] + w);
      SplitAfterToken(tokens[0], [sep] + w, sep);
      SplitAfterSeparator(w, sep);
      assert ([""] + Split(w, sep))[1..] == Split(w, sep);
      assert tokens[0] + "" == tokens[0];
      assert tokens == [tokens[0]] + tokens[1..];
    }
  }

  /** The first token of a split is `t` exactly when `t` has no separator
      and the string is `t` alone or `t` followed by a separator. */
  lemma FirstToken(s: string, t: string, sep: char)
    ensures Split(s, sep)[0] == t <==> sep !in t && (s == t || t + [sep] <= s)
  {
    var r := Split(s, sep);
    if r[0] == t {
      JoinOfSplit(s, sep);
      if |r| > 1 {
        assert s == t + [sep] + Join(r[1..], sep);
        assert (t + [sep] + Join(r[1..], sep))[..|t| + 1] == t + [sep];
      }
    }
    if sep !in t && s == t {
      SplitAfterToken(t, "", sep);
      assert t + "" == t;
    }
    if sep !in t && t + [sep] <= s {
      var w := s[|t| + 1..];
      assert s == t + ([sep] + w);
      SplitAfterToken(t, [sep] + w, sep);
      SplitAfterSeparator(w, sep);
      assert t + "" == t;
    }
  }

  /** JavaScript's `chunks.join('')`: the chunks one after another, with
      nothing between them. */
  function Concat(chunks: seq<string>): (r: string)
    ensures |chunks| > 0 ==> chunks[0] <= r
    ensures forall i :: 0 <= i < |chunks| ==> |chunks[i]| <= |r|
    ensures (forall i :: 0 <= i < |chunks| ==> chunks[i] == "") ==> r == ""
    decreases |chunks|
  {
    if |chunks| == 0 then "" else chunks[0] + Concat(chunks[1..])
  }

  /** Appending a chunk appends its text to the concatenation. */
  lemma ConcatAppend(chunks: seq<string>, c: string)
    ensures Concat(chunks + [c]) == Concat(chunks) + c
  {
    ConcatOfAppend(chunks, [c]);
    ConcatCons(c, []);
    assert [c] + [] == [c];
  }

  /** Joining two lists of chunks one after the other joins each and puts
      the texts one after the other. */
  lemma {:induction false} ConcatOfAppend(a: seq<string>, b: seq<string>)
    ensures Concat(a + b) == Concat(a) + Concat(b)
    decreases |a|
  {
    if |a| == 0 {
      assert a + b == b;
    } else {
      assert a + b == [a[0]] + (a[1..] + b);
      ConcatCons(a[0], a[1..] + b);
      ConcatOfAppend(a[1..], b);
    }
  }

  /** A chunk list is the chunks before index `i`, then chunk `i`, then the
      chunks after it. */
  lemma AroundIndex(chunks: seq<string>, i: nat)
    requires i < |chunks|
    ensures chunks == chunks[..i] + ([chunks[i]] + chunks[i + 1..])
  {
  }

  /** Putting one chunk in front puts its text in front. */
  lemma ConcatCons(c: string, rest: seq<string>)
    ensures Concat([c] + rest) == c + Concat(rest)
  {
    assert ([c] + rest)[1..] == rest;
  }

  /** Every chunk occurs in the concatenation, after the text of the chunks
      that came before it and before the text of those that came after. */
  lemma ConcatAt(chunks: seq<string>, i: nat)
    requires i < |chunks|
    ensures Concat(chunks) == Concat(chunks[..i]) + chunks[i] + Concat(chunks[i + 1..])
  {
    AroundIndex(chunks, i);
    ConcatOfAppend(chunks[..i], [chunks[i]] + chunks[i + 1..]);
    ConcatCons(chunks[i], chunks[i + 1..]);
  }
}
