/** The lexical scanners of crates/moye/src/utils.rs. Every scanner splits its input into
    the consumed prefix and the remainder, returned remainder first, as `(remainder, consumed)`. */
module Scanners {
  import opened Results
  import opened Numbers

  /** `rest` is what is left of `s` after some prefix of it was consumed. */
  predicate Narrowed(rest: string, s: string) {
    |rest| <= |s| && s[|s| - |rest|..] == rest
  }

  /** `rest` is what is left of `s` after a non-empty prefix of it was consumed. */
  predicate Consumed(rest: string, s: string) {
    |rest| < |s| && s[|s| - |rest|..] == rest
  }

  lemma SplitIsNarrowed(taken: string, rest: string, s: string)
    requires taken + rest == s
    ensures Narrowed(rest, s)
    ensures taken != [] ==> Consumed(rest, s)
  {
    assert s[|taken|..] == rest;
  }

  /** Narrowing twice narrows, and consumes if either step consumed. */
  lemma NarrowedTrans(a: string, b: string, c: string)
    requires Narrowed(a, b) && Narrowed(b, c)
    ensures Narrowed(a, c)
    ensures Consumed(a, b) || Consumed(b, c) ==> Consumed(a, c)
  {
    assert c[|c| - |a|..] == c[|c| - |b|..][|b| - |a|..];
  }

  predicate IsAsciiAlphabetic(c: char) {
    'a' <= c <= 'z' || 'A' <= c <= 'Z'
  }

  predicate IsAsciiAlphanumeric(c: char) {
    IsAsciiAlphabetic(c) || IsAsciiDigit(c)
  }

  /** The WHITESPACE table of the scanners: a space and a newline. */
  const Whitespace: seq<char> := [' ', '\n']

  predicate IsWhitespace(c: char) {
    c in Whitespace
  }

  predicate IsSpace(c: char) {
    c == ' '
  }

  predicate All(accept: char -> bool, s: string) {
    forall i :: 0 <= i < |s| ==> accept(s[i])
  }

  /** `take_while`: the longest prefix of `s` whose characters all satisfy `accept`. */
  function TakeWhile(accept: char -> bool, s: string): (r: (string, string))
    ensures r.1 + r.0 == s
    ensures All(accept, r.1)
    ensures r.0 == [] || !accept(r.0[0])
  {
    if s == [] || !accept(s[0]) then (s, [])
    else
      var (rest, taken) := TakeWhile(accept, s[1..]);
      (rest, [s[0]] + taken)
  }

  /** The split that TakeWhile computes is the only one whose prefix is accepted and whose
      remainder does not start with an accepted character. */
  lemma {:induction false} TakeWhileUnique(accept: char -> bool, s: string, taken: string, rest: string)
    requires taken + rest == s
    requires All(accept, taken)
    requires rest == [] || !accept(rest[0])
    ensures TakeWhile(accept, s) == (rest, taken)
  {
    if taken != [] {
      assert s[0] == taken[0] && s[1..] == taken[1..] + rest;
      assert All(accept, taken[1..]) by {
        forall i | 0 <= i < |taken[1..]| ensures accept(taken[1..][i]) {
          assert taken[1..][i] == taken[i + 1];
        }
      }
      TakeWhileUnique(accept, s[1..], taken[1..], rest);
      assert accept(s[0]) by { assert accept(taken[0]); }
      assert [taken[0]] + taken[1..] == taken;
      assert TakeWhile(accept, s) == (TakeWhile(accept, s[1..]).0, [s[0]] + TakeWhile(accept, s[1..]).1);
    } else {
      assert rest == s;
    }
  }

  /** `take_while_with_error`: TakeWhile, failing with `errorMsg` when nothing is taken. */
  function TakeWhileWithError(accept: char -> bool, s: string, errorMsg: string): (r: Result<(string, string)>)
    ensures r.Ok? || r.Err?
    ensures r.Err? <==> s == [] || !accept(s[0])
    ensures r.Err? ==> r.msg == errorMsg
    ensures r.Ok? ==> r.value == TakeWhile(accept, s) && r.value.1 != []
  {
    var (remainder, extracted) := TakeWhile(accept, s);
    if extracted == [] then Err(errorMsg) else Ok((remainder, extracted))
  }

  /** `extract_whitespaces`: the maximal run of spaces and newlines; never fails. */
  function ExtractWhitespaces(s: string): (r: (string, string))
    ensures r.1 + r.0 == s
    ensures forall i :: 0 <= i < |r.1| ==> r.1[i] == ' ' || r.1[i] == '\n'
    ensures r.0 == [] || (r.0[0] != ' ' && r.0[0] != '\n')
  {
    TakeWhile(IsWhitespace, s)
  }

  /** `take_while(|c| c == ' ', s)`: the maximal run of spaces; never fails. */
  function ExtractSpaces(s: string): (r: (string, string))
    ensures r.1 + r.0 == s
    ensures All(IsSpace, r.1)
    ensures r.0 == [] || r.0[0] != ' '
  {
    TakeWhile(IsSpace, s)
  }

  /** `extract_whitespaces_with_error`: at least one space or newline is required. */
  function ExtractWhitespacesWithError(s: string): (r: Result<(string, string)>)
    ensures r.Ok? || r.Err?
    ensures r.Err? <==> s == [] || (s[0] != ' ' && s[0] != '\n')
    ensures r.Err? ==> r.msg == "expected a space"
    ensures r.Ok? ==> r.value == ExtractWhitespaces(s)
  {
    TakeWhileWithError(IsWhitespace, s, "expected a space")
  }

  /** `extract_digits`: the maximal run of ASCII digits, which must not be empty. */
  function ExtractDigits(s: string): (r: Result<(string, string)>)
    ensures r.Ok? || r.Err?
    ensures r.Err? <==> s == [] || !IsAsciiDigit(s[0])
    ensures r.Err? ==> r.msg == "expected digits"
    ensures r.Ok? ==> r.value.1 + r.value.0 == s && r.value.1 != [] && AllDigits(r.value.1)
    ensures r.Ok? ==> r.value.0 == [] || !IsAsciiDigit(r.value.0[0])
  {
    TakeWhileWithError(IsAsciiDigit, s, "expected digits")
  }

  predicate StartsWithDigit(s: string) {
    s != [] && IsAsciiDigit(s[0])
  }

  /** Rust's `chars().next().map(|ch| ch.is_ascii_alphabetic()).unwrap_or(false)`. */
  predicate StartsWithAlphabetic(s: string) {
    s != [] && IsAsciiAlphabetic(s[0])
  }

  /** A name as the scanners read it: a letter, then letters and digits. */
  predicate IsIdent(name: string) {
    StartsWithAlphabetic(name) && All(IsAsciiAlphanumeric, name)
  }

  /** `extract_ident`: a letter followed by the maximal run of letters and digits. */
  function ExtractIdent(s: string): (r: Result<(string, string)>)
    ensures r.Ok? || r.Err?
    ensures r.Err? <==> !StartsWithAlphabetic(s)
    ensures r.Err? ==> r.msg == "expected identifier"
    ensures r.Ok? ==> r.value.1 + r.value.0 == s && IsIdent(r.value.1)
    ensures r.Ok? ==> r.value.0 == [] || !IsAsciiAlphanumeric(r.value.0[0])
  {
    if StartsWithAlphabetic(s) then Ok(TakeWhile(IsAsciiAlphanumeric, s))
    else Err("expected identifier")
  }

  /** `tag`: consumes exactly the literal `text`, or fails naming it. */
  function Tag(text: string, s: string): (r: Result<string>)
    ensures r.Ok? || r.Err?
    ensures r.Ok? <==> text <= s
    ensures r.Ok? ==> text + r.value == s
    ensures r.Err? ==> r.msg == "expected " + text
  {
    if text <= s then Ok(s[|text|..]) else Err("expected " + text)
  }

  lemma TagRemovesExactlyTheLiteral(text: string, rest: string)
    ensures Tag(text, text + rest) == Ok(rest)
  {
    assert text <= text + rest;
    assert (text + rest)[|text|..] == rest;
  }

  /** An item parser whose rest is shorter than its input whenever it succeeds, which is
      what makes the loop of `sequence` end. */
  ghost predicate Shortening<T>(parser: string -> Result<(string, T)>) {
    forall t :: parser(t).Ok? ==> |parser(t).value.0| < |t|
  }

  /** A separator parser whose rest is never longer than its input. */
  ghost predicate NotLengthening(separator: string -> (string, string)) {
    forall t :: |separator(t).0| <= |t|
  }

  /** An item parser that consumes a non-empty prefix whenever it succeeds. */
  ghost predicate Progressing<T>(parser: string -> Result<(string, T)>) {
    forall t :: parser(t).Ok? ==> Consumed(parser(t).value.0, t)
  }

  /** An item parser that neither panics nor runs out: it succeeds or returns `Err`. */
  ghost predicate Recoverable<T>(parser: string -> Result<(string, T)>) {
    forall t :: parser(t).Ok? || parser(t).Err?
  }

  /** A separator parser that only ever consumes a prefix. */
  ghost predicate Narrowing(separator: string -> (string, string)) {
    forall t :: Narrowed(separator(t).0, t)
  }

  /** Puts `items` in front of the items of a successful sequence result. */
  function PrependItems<T>(items: seq<T>, r: Result<(string, seq<T>)>): Result<(string, seq<T>)> {
    if r.Ok? then Ok((r.value.0, items + r.value.1)) else r
  }

  /** `sequence`: items separated by `separator`, up to the first item that does not parse.
      A separator is consumed after every item, the last one included. */
  function Sequence<T>(parser: string -> Result<(string, T)>, separator: string -> (string, string), s: string)
    : (r: Result<(string, seq<T>)>)
    requires Shortening(parser) && NotLengthening(separator)
    decreases |s|
    ensures !r.Err?
    ensures r.Ok? ==> |r.value.0| <= |s| && parser(r.value.0).Err?
    ensures r.Ok? && Progressing(parser) && Narrowing(separator) ==> Narrowed(r.value.0, s)
    ensures r.Ok? && r.value.1 == [] ==> r.value.0 == s
    ensures parser(s).Err? ==> r == Ok((s, []))
    ensures Recoverable(parser) ==> r.Ok?
  {
    match parser(s)
    case Ok((afterItem, item)) =>
      var next := separator(afterItem).0;
      var tail := Sequence(parser, separator, next);
      assert tail.Ok? && Progressing(parser) && Narrowing(separator) ==> Narrowed(tail.value.0, s) by {
        if tail.Ok? && Progressing(parser) && Narrowing(separator) {
          NarrowedTrans(next, afterItem, s);
          NarrowedTrans(tail.value.0, next, s);
        }
      }
      PrependItems([item], tail)
    case Err(_) => Ok((s, []))
    case Panic(reason) => Panic(reason)
    case Exhausted => Exhausted
  }

  /** The `while let` loop of `sequence`, item by item. */
  method RunSequence<T>(parser: string -> Result<(string, T)>, separator: string -> (string, string), input: string)
    returns (r: Result<(string, seq<T>)>)
    requires Shortening(parser) && NotLengthening(separator)
    ensures r == Sequence(parser, separator, input)
  {
    var s := input;
    var items: seq<T> := [];
    assert Sequence(parser, separator, s).Ok? ==> [] + Sequence(parser, separator, s).value.1 == Sequence(parser, separator, s).value.1;
    while true
      invariant Sequence(parser, separator, input) == PrependItems(items, Sequence(parser, separator, s))
      decreases |s|
    {
      match parser(s) {
        case Ok((afterItem, item)) =>
          var next := separator(afterItem).0;
          ghost var tail := Sequence(parser, separator, next);
          if tail.Ok? {
            assert items + ([item] + tail.value.1) == (items + [item]) + tail.value.1;
          }
          s := next;
          items := items + [item];
        case Err(_) =>
          assert items + [] == items;
          return Ok((s, items));
        case Panic(reason) =>
          return Panic(reason);
        case Exhausted =>
          return Exhausted;
      }
    }
  }

  const EmptySequenceMessage := "expected a sequence with more than one item"

  /** The check that `non_empty_sequence` adds to a sequence result. */
  function RequireNonEmpty<T>(r: Result<(string, seq<T>)>): Result<(string, seq<T>)> {
    if r.Ok? && r.value.1 == [] then Err(EmptySequenceMessage) else r
  }

  /** `non_empty_sequence`: fails exactly when the first item does not parse. */
  function NonEmptySequence<T>(parser: string -> Result<(string, T)>, separator: string -> (string, string), s: string)
    : (r: Result<(string, seq<T>)>)
    requires Shortening(parser) && NotLengthening(separator)
    ensures r.Err? <==> parser(s).Err?
    ensures r.Err? ==> r.msg == EmptySequenceMessage
    ensures r.Ok? ==> |r.value.1| >= 1 && r == Sequence(parser, separator, s)
  {
    RequireNonEmpty(Sequence(parser, separator, s))
  }

  lemma WhitespaceScannersNarrow()
    ensures Narrowing(ExtractWhitespaces) && NotLengthening(ExtractWhitespaces)
    ensures Narrowing(ExtractSpaces) && NotLengthening(ExtractSpaces)
  {
    forall t ensures Narrowed(ExtractWhitespaces(t).0, t) {
      var r := ExtractWhitespaces(t);
      assert t[|t| - |r.0|..] == r.0 by { assert t == r.1 + r.0; }
    }
    forall t ensures Narrowed(ExtractSpaces(t).0, t) {
      var r := ExtractSpaces(t);
      assert t[|t| - |r.0|..] == r.0 by { assert t == r.1 + r.0; }
    }
  }

  lemma ExtractIdentProgresses()
    ensures Progressing(ExtractIdent) && Shortening(ExtractIdent) && Recoverable(ExtractIdent)
  {
    forall t | ExtractIdent(t).Ok? ensures Consumed(ExtractIdent(t).value.0, t) {
      var r := ExtractIdent(t).value;
      assert t[|t| - |r.0|..] == r.0 by { assert t == r.1 + r.0; }
    }
  }

  lemma ExtractDigitsExample()
    ensures ExtractDigits("10+20") == Ok(("+20", "10"))
    ensures ExtractDigits("abcd") == Err("expected digits")
  {
    TakeWhileUnique(IsAsciiDigit, "10+20", "10", "+20");
  }

  lemma ExtractIdentExample()
    ensures ExtractIdent("var1()") == Ok(("()", "var1"))
    ensures ExtractIdent("123abc") == Err("expected identifier")
  {
    TakeWhileUnique(IsAsciiAlphanumeric, "var1()", "var1", "()");
  }
}
