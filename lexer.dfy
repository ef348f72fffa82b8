/**
  The token classifier of the query language.

  The character-level scanner is not part of this model. A lexer is a cursor
  over the (token, literal) stream that its scanner yields for one query; that
  stream ends in EOF, and EOF is what every call returns once the cursor has
  reached it. The four traversal operations of the lexer are loops over the
  raw scan, each stopping at the first token of the kind its caller wants.
 */
module Lexer {
  import opened Wrappers

  /** The lexical categories. `MIN` is both the `min` aggregate and the minute unit. */
  datatype Token =
    | EOF | WHITESPACE | IDENTIFIER
    | SELECT | FROM | WHERE | AND | OR
    | COUNT | SUM | AVG | MIN | MAX | MED
    | TIME | LENGTH | SEC
    | LPAREN | RPAREN | COMMA | DOT
    | LARGER | LESS | ASTERISK

  type Entry = (Token, string)

  /** The keyword table: lower-case spellings of the keyword tokens. */
  function KeywordOf(word: string): (r: Option<Token>)
    ensures r.Some? ==> r.value != IDENTIFIER && r.value != WHITESPACE && r.value != EOF
  {
    match word
    case "select" => Some(SELECT)
    case "from" => Some(FROM)
    case "where" => Some(WHERE)
    case "and" => Some(AND)
    case "or" => Some(OR)
    case "count" => Some(COUNT)
    case "sum" => Some(SUM)
    case "avg" => Some(AVG)
    case "min" => Some(MIN)
    case "max" => Some(MAX)
    case "med" => Some(MED)
    case "time" => Some(TIME)
    case "length" => Some(LENGTH)
    case "sec" => Some(SEC)
    case _ => None
  }

  /** A scanner's output for one query: EOF comes last and nowhere else. */
  predicate WellFormed(s: seq<Entry>) {
    |s| > 0 && s[|s| - 1].0 == EOF &&
    forall i :: 0 <= i < |s| - 1 ==> s[i].0 != EOF
  }

  /** The traversal modes: the four lexer operations, and the caller loops that skip to an anchor. */
  datatype Mode = Raw | IgnoreWhiteSpace | Identifier | IgnoreIdentifier | Until(anchor: Token)

  /** Whether a traversal in mode `m` returns token `t` (EOF always ends a traversal). */
  predicate Stops(m: Mode, t: Token) {
    t == EOF ||
    match m
    case Raw => true
    case IgnoreWhiteSpace => t != WHITESPACE
    case Identifier => t == IDENTIFIER
    case IgnoreIdentifier => t != WHITESPACE && t != IDENTIFIER
    case Until(a) => t == a
  }

  /** The cursor after one raw scan at `i`: one further, except that EOF does not move. */
  function Step(s: seq<Entry>, i: nat): (k: nat)
    requires WellFormed(s) && i < |s|
    ensures k < |s|
  {
    if s[i].0 == EOF then i else i + 1
  }

  /** The index of the entry a traversal in mode `m` from cursor `i` returns. */
  function Seek(s: seq<Entry>, i: nat, m: Mode): (j: nat)
    requires WellFormed(s) && i < |s|
    ensures i <= j < |s| && Stops(m, s[j].0)
    ensures forall k :: i <= k < j ==> !Stops(m, s[k].0)
    decreases |s| - i
  {
    if Stops(m, s[i].0) then i else Seek(s, i + 1, m)
  }

  /** The first stop of a traversal is where it ends: `Seek` is determined by where mode `m` stops. */
  lemma {:induction false} SeekFirst(s: seq<Entry>, i: nat, m: Mode, j: nat)
    requires WellFormed(s) && i <= j < |s| && Stops(m, s[j].0)
    requires forall k :: i <= k < j ==> !Stops(m, s[k].0)
    ensures Seek(s, i, m) == j
    decreases j - i
  {
    if i < j {
      SeekFirst(s, i + 1, m, j);
    }
  }

  class Lexer {
    const stream: seq<Entry>
    var pos: nat

    ghost predicate Valid()
      reads this
    {
      WellFormed(stream) && pos < |stream|
    }

    /** A fresh lexer positioned at the start of the query. */
    constructor (s: seq<Entry>)
      requires WellFormed(s)
      ensures Valid() && stream == s && pos == 0
    {
      stream := s;
      pos := 0;
    }

    /** The next token exactly as it appears, whitespace included. */
    method Tokenize() returns (token: Token, literal: string)
      requires Valid()
      modifies this
      ensures Valid()
      ensures (token, literal) == stream[old(pos)] && pos == Step(stream, old(pos))
    {
      token, literal := stream[pos].0, stream[pos].1;
      if token != EOF {
        pos := pos + 1;
      }
    }

    /** Raw scans until the first token that a traversal in mode `m` returns. */
    method Scan(m: Mode) returns (token: Token, literal: string)
      requires Valid()
      modifies this
      ensures Valid()
      ensures var j := Seek(stream, old(pos), m);
        (token, literal) == stream[j] && pos == Step(stream, j)
    {
      ghost var j := pos;
      token, literal := Tokenize();
      while !Stops(m, token)
        invariant Valid()
        invariant j < |stream| && (token, literal) == stream[j] && pos == Step(stream, j)
        invariant Seek(stream, old(pos), m) == Seek(stream, j, m)
        decreases |stream| - j
      {
        j := pos;
        token, literal := Tokenize();
      }
    }

    /** The next token that is not whitespace. */
    method TokenizeIgnoreWhiteSpace() returns (token: Token, literal: string)
      requires Valid()
      modifies this
      ensures Valid()
      ensures var j := Seek(stream, old(pos), Mode.IgnoreWhiteSpace);
        (token, literal) == stream[j] && pos == Step(stream, j)
    {
      token, literal := Scan(Mode.IgnoreWhiteSpace);
    }

    /** The next identifier (a name, a digit run or unclassified text), or EOF. */
    method TokenizeIdentifier() returns (token: Token, literal: string)
      requires Valid()
      modifies this
      ensures Valid()
      ensures var j := Seek(stream, old(pos), Mode.Identifier);
        (token, literal) == stream[j] && pos == Step(stream, j)
    {
      token, literal := Scan(Mode.Identifier);
    }

    /** The next token that is neither whitespace nor an identifier. */
    method TokenizeIgnoreIdentifier() returns (token: Token, literal: string)
      requires Valid()
      modifies this
      ensures Valid()
      ensures var j := Seek(stream, old(pos), Mode.IgnoreIdentifier);
        (token, literal) == stream[j] && pos == Step(stream, j)
    {
      token, literal := Scan(Mode.IgnoreIdentifier);
    }
  }

  /** The entries that `n` successive traversals in mode `m` return, from cursor `i`. */
  function Calls(s: seq<Entry>, i: nat, m: Mode, n: nat): (r: seq<Entry>)
    requires WellFormed(s) && i < |s|
    ensures |r| == n
    decreases n
  {
    if n == 0 then [] else
    var j := Seek(s, i, m);
    [s[j]] + Calls(s, Step(s, j), m, n - 1)
  }

  /** The cursor after `n` successive traversals in mode `m`, from cursor `i`. */
  function After(s: seq<Entry>, i: nat, m: Mode, n: nat): (k: nat)
    requires WellFormed(s) && i < |s|
    ensures k < |s|
    decreases n
  {
    if n == 0 then i else After(s, Step(s, Seek(s, i, m)), m, n - 1)
  }

  /** The entries of `s` that mode `m` does not skip, in order. */
  function Visible(s: seq<Entry>, m: Mode): seq<Entry> {
    if s == [] then []
    else (if Stops(m, s[0].0) then [s[0]] else []) + Visible(s[1..], m)
  }

  /** One more traversal extends the returned entries by the entry at the cursor's next stop. */
  lemma {:induction false} CallsSnoc(s: seq<Entry>, i: nat, m: Mode, n: nat)
    requires WellFormed(s) && i < |s|
    ensures Calls(s, i, m, n + 1) == Calls(s, i, m, n) + [s[Seek(s, After(s, i, m, n), m)]]
    ensures After(s, i, m, n + 1) == Step(s, Seek(s, After(s, i, m, n), m))
    decreases n
  {
    if n > 0 {
      var next := Step(s, Seek(s, i, m));
      CallsSnoc(s, next, m, n - 1);
      CallsCons(s, i, m, n);
      CallsCons(s, i, m, n - 1);
      var x, y := [s[Seek(s, i, m)]], [s[Seek(s, After(s, next, m, n - 1), m)]];
      assert x + (Calls(s, next, m, n - 1) + y) == (x + Calls(s, next, m, n - 1)) + y;
    }
  }

  /** The first traversal returns the entry at the first stop, and the rest start after it. */
  lemma CallsCons(s: seq<Entry>, i: nat, m: Mode, n: nat)
    requires WellFormed(s) && i < |s|
    ensures var next := Step(s, Seek(s, i, m));
      Calls(s, i, m, n + 1) == [s[Seek(s, i, m)]] + Calls(s, next, m, n) &&
      After(s, i, m, n + 1) == After(s, next, m, n)
  {
  }

  /** Skipped entries contribute nothing to what a traversal sees. */
  lemma {:induction false} VisibleSkips(s: seq<Entry>, i: nat, m: Mode)
    requires WellFormed(s) && i < |s|
    ensures Visible(s[i..], m) == [s[Seek(s, i, m)]] + Visible(s[Seek(s, i, m) + 1..], m)
    decreases |s| - i
  {
    assert s[i..][1..] == s[i + 1..];
    if !Stops(m, s[i].0) {
      VisibleSkips(s, i + 1, m);
    }
  }

  /** What a traversal sees from cursor `i` ends with the stream's EOF. */
  lemma {:induction false} VisibleEndsInEof(s: seq<Entry>, i: nat, m: Mode)
    requires WellFormed(s) && i < |s|
    ensures |Visible(s[i..], m)| > 0 && Visible(s[i..], m)[|Visible(s[i..], m)| - 1] == s[|s| - 1]
    decreases |s| - i
  {
    VisibleSkips(s, i, m);
    var j := Seek(s, i, m);
    if j < |s| - 1 {
      VisibleEndsInEof(s, j + 1, m);
    } else {
      assert s[j + 1..] == [];
    }
  }

  /** The entries that traversals from cursor `i` return until the first EOF, stated by stops. */
  function Seen(s: seq<Entry>, i: nat, m: Mode): (r: seq<Entry>)
    requires WellFormed(s) && i < |s|
    ensures |r| > 0
    decreases |s| - i
  {
    var j := Seek(s, i, m);
    if j == |s| - 1 then [s[j]] else [s[j]] + Seen(s, j + 1, m)
  }

  /** The stop-by-stop view is the filtered suffix of the stream. */
  lemma {:induction false} SeenIsVisible(s: seq<Entry>, i: nat, m: Mode)
    requires WellFormed(s) && i < |s|
    ensures Seen(s, i, m) == Visible(s[i..], m)
    decreases |s| - i
  {
    var j := Seek(s, i, m);
    VisibleSkips(s, i, m);
    if j < |s| - 1 {
      SeenIsVisible(s, j + 1, m);
    } else {
      assert s[j + 1..] == [];
    }
  }

  /** `n` traversals return the first `n` entries of the stop-by-stop view. */
  lemma {:induction false} CallsSeen(s: seq<Entry>, i: nat, m: Mode, n: nat)
    requires WellFormed(s) && i < |s| && n <= |Seen(s, i, m)|
    ensures Calls(s, i, m, n) == Seen(s, i, m)[..n]
    decreases n
  {
    if n > 0 {
      var j := Seek(s, i, m);
      CallsCons(s, i, m, n - 1);
      if j < |s| - 1 {
        var rest := Seen(s, j + 1, m);
        CallsSeen(s, j + 1, m, n - 1);
        PrefixOfCons(s[j], rest, n);
      }
    }
  }

  /**
    Repeated traversals in mode `m` return, in order, exactly the entries that
    mode does not skip: the filtered view of the stream.
   */
  lemma CallsAreVisible(s: seq<Entry>, i: nat, m: Mode, n: nat)
    requires WellFormed(s) && i < |s| && n <= |Visible(s[i..], m)|
    ensures Calls(s, i, m, n) == Visible(s[i..], m)[..n]
  {
    SeenIsVisible(s, i, m);
    CallsSeen(s, i, m, n);
  }

  /** A prefix of a sequence with a first element keeps that element. */
  lemma PrefixOfCons(x: Entry, r: seq<Entry>, n: nat)
    requires 0 < n <= |r| + 1
    ensures ([x] + r)[..n] == [x] + r[..n - 1]
  {
  }

  /** Once at EOF, every further traversal in any mode returns EOF again. */
  lemma {:induction false} EofRepeats(s: seq<Entry>, i: nat, m: Mode, n: nat)
    requires WellFormed(s) && i < |s| && s[i].0 == EOF
    ensures forall k :: 0 <= k < n ==> Calls(s, i, m, n)[k] == s[i]
    ensures After(s, i, m, n) == i
    decreases n
  {
    if n > 0 {
      EofRepeats(s, i, m, n - 1);
    }
  }

  /** A raw traversal returns the whole stream, entry by entry. */
  lemma {:induction false} RawSeesAll(s: seq<Entry>)
    ensures Visible(s, Raw) == s
    decreases |s|
  {
    if s != [] {
      RawSeesAll(s[1..]);
    }
  }

  /**
    Filtered-view consistency: the tokens that repeated whitespace-skipping
    calls return are the tokens that repeated raw calls return, with the
    whitespace runs removed.
   */
  lemma FilteredViewConsistency(s: seq<Entry>, n: nat)
    requires WellFormed(s) && n <= |Visible(s, IgnoreWhiteSpace)|
    ensures Calls(s, 0, Raw, |s|) == s
    ensures Calls(s, 0, IgnoreWhiteSpace, n) == Visible(Calls(s, 0, Raw, |s|), IgnoreWhiteSpace)[..n]
  {
    assert s[0..] == s;
    RawSeesAll(s);
    CallsAreVisible(s, 0, Raw, |s|);
    CallsAreVisible(s, 0, IgnoreWhiteSpace, n);
  }
}
