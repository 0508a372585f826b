/**
 * Status labels of the order calendar: `StatusRowComponent.formatStatus` and
 * `PaymentRowComponent.formatPaymentStatus` turn a machine label such as
 * "in_progress" into a display label such as "In Progress".
 *
 * The source pipeline is: replace every '_' by ' ', split on ' ', upper-case
 * the first character of each piece, join the pieces with ' '.
 */
module StatusFormat {

  /** `toUpperCase` on one character, restricted to ASCII: a-z become A-Z, all else is kept. */
  function ToUpper(c: char): (u: char)
    ensures !('a' <= u <= 'z')
    ensures u == ' ' <==> c == ' '
    ensures u == '_' <==> c == '_'
    ensures 'a' <= c <= 'z' ==> 'A' <= u <= 'Z'
  {
    if 'a' <= c <= 'z' then (c as int - 32) as char else c
  }

  /** What `.replace(/_/g, " ")` does to one character. */
  function Blank(c: char): (b: char)
    ensures b != '_'
    ensures b == ' ' <==> c == ' ' || c == '_'
  {
    if c == '_' then ' ' else c
  }

  /** `.replace(/_/g, " ")`: every underscore becomes a space, every other character stays. */
  function ReplaceUnderscores(s: string): (t: string)
    ensures |t| == |s|
    ensures '_' !in t
    ensures forall i :: 0 <= i < |s| ==> t[i] == Blank(s[i])
  {
    if s == [] then [] else [Blank(s[0])] + ReplaceUnderscores(s[1..])
  }

  /**
   * `.split(" ")`: the pieces between single spaces, in order. Consecutive,
   * leading and trailing spaces give empty pieces, and the empty string
   * gives one empty piece, so there is always at least one piece.
   */
  function Split(s: string): (ws: seq<string>)
    ensures |ws| >= 1
    ensures forall k :: 0 <= k < |ws| ==> ' ' !in ws[k]
  {
    if s == [] then [[]]
    else if s[0] == ' ' then [[]] + Split(s[1..])
    else
      var rest := Split(s[1..]);
      [[s[0]] + rest[0]] + rest[1..]
  }

  /** `.join(" ")`: the pieces with one space between neighbours; no pieces give "". */
  function Join(ws: seq<string>): string
  {
    if ws == [] then []
    else if |ws| == 1 then ws[0]
    else ws[0] + " " + Join(ws[1..])
  }

  /** `word.charAt(0).toUpperCase() + word.slice(1)`; the empty word stays empty. */
  function CapitalizeWord(w: string): (r: string)
    ensures |r| == |w|
    ensures ' ' in r <==> ' ' in w
  {
    if w == [] then [] else [ToUpper(w[0])] + w[1..]
  }

  /** `.map(...)` of `CapitalizeWord` over the pieces. */
  function CapitalizeWords(ws: seq<string>): (rs: seq<string>)
    ensures |rs| == |ws|
    ensures forall k :: 0 <= k < |ws| ==> rs[k] == CapitalizeWord(ws[k])
  {
    if ws == [] then [] else [CapitalizeWord(ws[0])] + CapitalizeWords(ws[1..])
  }

  /**
   * Whether position `i` of `t` starts a word: the first position starts one
   * exactly when `atWordStart` holds, any other exactly when it follows a space.
   */
  predicate WordStart(t: string, i: int, atWordStart: bool)
    requires 0 <= i < |t|
  {
    if i == 0 then atWordStart else t[i - 1] == ' '
  }

  /**
   * Reference definition of the label transform, one character at a time:
   * a character is upper-cased exactly when it starts a word, every other
   * character is kept.
   */
  function TitleCase(t: string, atWordStart: bool): (r: string)
    ensures |r| == |t|
    ensures forall i :: 0 <= i < |t| ==>
      r[i] == (if WordStart(t, i, atWordStart) then ToUpper(t[i]) else t[i])
  {
    if t == [] then []
    else [if atWordStart then ToUpper(t[0]) else t[0]] + TitleCase(t[1..], t[0] == ' ')
  }

  /**
   * `StatusRowComponent.formatStatus`: the split/capitalize/join pipeline on
   * the input with underscores blanked equals the character-wise reference
   * `TitleCase`, so the label keeps the input's length.
   */
  function FormatStatus(s: string): (r: string)
    ensures |r| == |s|
    ensures r == TitleCase(ReplaceUnderscores(s), true)
  {
    var t := ReplaceUnderscores(s);
    FormatIsTitleCase(t);
    Join(CapitalizeWords(Split(t)))
  }

  /**
   * The label holds no underscore; it has a space exactly where the input has
   * a space or an underscore; every other character is the input's, upper-cased
   * exactly where a word starts (existing capitals stay, nothing is lower-cased).
   */
  lemma FormatStatusPointwise(s: string)
    ensures '_' !in FormatStatus(s)
    ensures forall i :: 0 <= i < |s| ==> (FormatStatus(s)[i] == ' ' <==> s[i] == ' ' || s[i] == '_')
    ensures forall i :: 0 <= i < |s| ==>
      FormatStatus(s)[i] == (if WordStart(ReplaceUnderscores(s), i, true) then ToUpper(Blank(s[i])) else Blank(s[i]))
  {
    var t := ReplaceUnderscores(s);
    var r := FormatStatus(s);
    forall i | 0 <= i < |s|
      ensures r[i] != '_' && (r[i] == ' ' <==> s[i] == ' ' || s[i] == '_')
      ensures r[i] == (if WordStart(t, i, true) then ToUpper(Blank(s[i])) else Blank(s[i]))
    {
      assert t[i] == Blank(s[i]);
    }
  }

  /** `PaymentRowComponent.formatPaymentStatus`: the same pipeline, written out a second time in the source. */
  function FormatPaymentStatus(s: string): string
  {
    Join(CapitalizeWords(Split(ReplaceUnderscores(s))))
  }

  /** The two label formatters agree on every input. */
  lemma PaymentStatusAgrees(s: string)
    ensures FormatPaymentStatus(s) == FormatStatus(s)
  {
  }

  /** Putting a character in front of the first piece puts it in front of the joined string. */
  lemma JoinConsChar(c: char, w: string, ys: seq<string>)
    ensures Join([[c] + w] + ys) == [c] + Join([w] + ys)
  {
    assert ([[c] + w] + ys)[1..] == ys;
    assert ([w] + ys)[1..] == ys;
  }

  /** The split/capitalize/join pipeline equals the reference `TitleCase`. */
  lemma {:induction false} FormatIsTitleCase(t: string)
    ensures Join(CapitalizeWords(Split(t))) == TitleCase(t, true)
  {
    var ws := Split(t);
    assert CapitalizeWords(ws) == [CapitalizeWord(ws[0])] + CapitalizeWords(ws[1..]);
    PipelineFrom(t, true);
  }

  /**
   * Generalisation for the induction: the first piece is capitalized only
   * when `first` holds, the others always.
   */
  lemma {:induction false} PipelineFrom(t: string, first: bool)
    ensures
      var ws := Split(t);
      Join([if first then CapitalizeWord(ws[0]) else ws[0]] + CapitalizeWords(ws[1..])) == TitleCase(t, first)
  {
    if t == [] {
    } else if t[0] == ' ' {
      var w := Split(t[1..]);
      assert Split(t) == [[]] + w;
      assert Split(t)[1..] == w;
      var cw := CapitalizeWords(w);
      assert cw == [CapitalizeWord(w[0])] + CapitalizeWords(w[1..]);
      PipelineFrom(t[1..], true);
      assert ([[]] + cw)[1..] == cw;
      assert Join([[]] + cw) == " " + Join(cw);
    } else {
      var w := Split(t[1..]);
      assert Split(t) == [[t[0]] + w[0]] + w[1..];
      var c := if first then ToUpper(t[0]) else t[0];
      assert (if first then CapitalizeWord([t[0]] + w[0]) else [t[0]] + w[0]) == [c] + w[0];
      JoinConsChar(c, w[0], CapitalizeWords(w[1..]));
      PipelineFrom(t[1..], false);
    }
  }

  /** Joining the pieces of a split gives back the string: no piece, and no empty piece, is lost. */
  lemma {:induction false} JoinSplit(t: string)
    ensures Join(Split(t)) == t
  {
    if t == [] {
    } else if t[0] == ' ' {
      var w := Split(t[1..]);
      JoinSplit(t[1..]);
      assert ([[]] + w)[1..] == w;
    } else {
      var w := Split(t[1..]);
      JoinSplit(t[1..]);
      JoinConsChar(t[0], w[0], w[1..]);
      assert [w[0]] + w[1..] == w;
    }
  }

  /** Splitting a word with no space, followed by a space and more text. */
  lemma {:induction false} SplitWordThenSpace(w: string, rest: string)
    requires ' ' !in w
    ensures Split(w + " " + rest) == [w] + Split(rest)
  {
    if w == [] {
      assert w + " " + rest == [' '] + rest;
      assert ([' '] + rest)[1..] == rest;
    } else {
      var s := w + " " + rest;
      assert s[0] == w[0] && s[1..] == w[1..] + " " + rest;
      SplitWordThenSpace(w[1..], rest);
      assert [w[0]] + w[1..] == w;
    }
  }

  /** A word with no space splits into itself. */
  lemma {:induction false} SplitWord(w: string)
    requires ' ' !in w
    ensures Split(w) == [w]
  {
    if w != [] {
      SplitWord(w[1..]);
      assert [w[0]] + w[1..] == w;
    }
  }

  /** Splitting the join of space-free pieces gives the pieces back, empty ones included. */
  lemma {:induction false} SplitJoin(ws: seq<string>)
    requires |ws| >= 1
    requires forall k :: 0 <= k < |ws| ==> ' ' !in ws[k]
    ensures Split(Join(ws)) == ws
  {
    if |ws| == 1 {
      SplitWord(ws[0]);
    } else {
      SplitJoin(ws[1..]);
      SplitWordThenSpace(ws[0], Join(ws[1..]));
      assert [ws[0]] + ws[1..] == ws;
    }
  }

  /**
   * Word view of the label: the words of the output are exactly the words of
   * the input (underscores read as spaces), in order and with empty words
   * kept, each with its first character upper-cased and the rest unchanged.
   */
  lemma FormatStatusWords(s: string)
    ensures Split(FormatStatus(s)) == CapitalizeWords(Split(ReplaceUnderscores(s)))
  {
    var ws := Split(ReplaceUnderscores(s));
    var cs := CapitalizeWords(ws);
    assert forall k :: 0 <= k < |cs| ==> ' ' !in cs[k];
    SplitJoin(cs);
  }

  /** Formatting a label that is already formatted changes nothing. */
  lemma FormatStatusIdempotent(s: string)
    ensures FormatStatus(FormatStatus(s)) == FormatStatus(s)
  {
  }
}
