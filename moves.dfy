/** Moves written in standard notation and the `scramble` method's reading
    of a space-separated scramble string. A double turn is the quarter turn
    twice and a prime turn the quarter turn three times, exactly as `u2` and
    `up` call `u`. */
module Moves {
  import opened Basics
  import opened CubeState

  datatype Amount = Quarter | Double | Prime

  datatype Move = Move(face: Face, amount: Amount)

  /** The state after one move. */
  function ApplyMove(m: Move, s: State): (r: State)
    requires Shaped(s)
    ensures Shaped(r)
  {
    match m.amount
    case Quarter => Turn(m.face, s)
    case Double => Turn(m.face, Turn(m.face, s))
    case Prime => Turn(m.face, Turn(m.face, Turn(m.face, s)))
  }

  /** The move that undoes `m`: a prime undoes a quarter turn and the
      reverse, a double turn undoes itself. */
  function Inverse(m: Move): (r: Move)
    ensures r.face == m.face
  {
    match m.amount
    case Quarter => Move(m.face, Prime)
    case Double => Move(m.face, Double)
    case Prime => Move(m.face, Quarter)
  }

  /** Every move keeps a well-formed state well-formed. */
  lemma ApplyMoveKeepsWellFormed(m: Move, s: State)
    requires WellFormed(s)
    ensures WellFormed(ApplyMove(m, s))
  {
    var f := m.face;
    TurnKeepsWellFormed(f, s);
    TurnKeepsWellFormed(f, Turn(f, s));
    TurnKeepsWellFormed(f, Turn(f, Turn(f, s)));
  }

  /** Every move, double and prime included, keeps the twist sum modulo 3
      and the flip sum modulo 2. */
  lemma MoveKeepsSums(m: Move, s: State)
    requires Shaped(s)
    ensures Sum(ApplyMove(m, s).co) % 3 == Sum(s.co) % 3
    ensures Sum(ApplyMove(m, s).eo) % 2 == Sum(s.eo) % 2
  {
    var f := m.face;
    var s1 := Turn(f, s);
    TurnKeepsOrientationSums(f, s);
    if m.amount != Quarter {
      var s2 := Turn(f, s1);
      TurnKeepsOrientationSums(f, s1);
      if m.amount == Prime {
        TurnKeepsOrientationSums(f, s2);
      }
    }
  }

  /** A move followed by its inverse leaves the cube as it was. */
  lemma InverseUndoesMove(m: Move, s: State)
    requires WellFormed(s)
    ensures ApplyMove(Inverse(m), ApplyMove(m, s)) == s
  {
    var f := m.face;
    TurnFourTimes(f, s);
    var s1 := Turn(f, s);
    var s2 := Turn(f, s1);
    var s3 := Turn(f, s2);
    match m.amount
    case Quarter =>
      assert ApplyMove(m, s) == s1;
      assert ApplyMove(Inverse(m), s1) == Turn(f, s3);
    case Double =>
      assert ApplyMove(m, s) == s2;
      assert ApplyMove(Inverse(m), s2) == Turn(f, s3);
    case Prime =>
      assert ApplyMove(m, s) == s3;
      assert ApplyMove(Inverse(m), s3) == Turn(f, s3);
  }

  // ---------------------------------------------------------------------
  // Tokens.

  function FaceLetter(f: Face): char
  {
    match f
    case U => 'U'
    case D => 'D'
    case F => 'F'
    case B => 'B'
    case R => 'R'
    case L => 'L'
  }

  function FaceOf(c: char): (r: Option<Face>)
    ensures r.Some? ==> FaceLetter(r.value) == c
    ensures r.None? ==> c !in "UDFBRL"
  {
    match c
    case 'U' => Some(U)
    case 'D' => Some(D)
    case 'F' => Some(F)
    case 'B' => Some(B)
    case 'R' => Some(R)
    case 'L' => Some(L)
    case _ => None
  }

  /** The notation of a move: the face letter, then nothing, `2` or `'`. */
  function MoveToken(m: Move): (tok: string)
    ensures 1 <= |tok| <= 2 && tok[0] == FaceLetter(m.face)
  {
    [FaceLetter(m.face)] +
      match m.amount
      case Quarter => ""
      case Double => "2"
      case Prime => "'"
  }

  /** The move a token names, or `None` for any other token: the eighteen
      cases of the `switch` in `scramble`, whose default case only logs. */
  function ParseMove(tok: string): (r: Option<Move>)
    ensures r.Some? ==> MoveToken(r.value) == tok
  {
    if |tok| == 0 || 2 < |tok| then None
    else match FaceOf(tok[0])
      case None => None
      case Some(f) =>
        if |tok| == 1 then Some(Move(f, Quarter))
        else if tok[1] == '2' then Some(Move(f, Double))
        else if tok[1] == '\'' then Some(Move(f, Prime))
        else None
  }

  /** Exactly the eighteen move tokens are recognised, each as its own move. */
  lemma ParseMoveRecognisesExactlyMoveTokens(tok: string, m: Move)
    ensures ParseMove(tok) == Some(m) <==> tok == MoveToken(m)
  {
    if tok == MoveToken(m) {
      assert FaceOf(tok[0]) == Some(m.face);
    }
  }

  /** The state after one token: a move token applies its move, anything
      else leaves the state as it was. */
  function ApplyToken(tok: string, s: State): (r: State)
    requires Shaped(s)
    ensures Shaped(r)
    ensures ParseMove(tok).None? ==> r == s
  {
    match ParseMove(tok)
    case None => s
    case Some(m) => ApplyMove(m, s)
  }

  // ---------------------------------------------------------------------
  // Splitting a scramble string.

  /** JavaScript's `s.split(sep)` for a one-character separator: the pieces
      between separators, empty pieces included, and one piece for a string
      without a separator (so the empty string gives one empty piece). */
  function Split(s: string, sep: char): (r: seq<string>)
    ensures |r| >= 1
    ensures forall i :: 0 <= i < |r| ==> sep !in r[i]
    decreases |s|
  {
    if s == [] then [[]]
    else
      var rest := Split(s[1..], sep);
      if s[0] == sep then [[]] + rest
      else [[s[0]] + rest[0]] + rest[1..]
  }

  /** The pieces glued back together with the separator between them. */
  function Join(pieces: seq<string>, sep: char): string
    requires |pieces| >= 1
    decreases |pieces|
  {
    if |pieces| == 1 then pieces[0] else pieces[0] + [sep] + Join(pieces[1..], sep)
  }

  /** Splitting loses nothing: joining the pieces gives the string back. */
  lemma {:induction false} JoinSplit(s: string, sep: char)
    ensures Join(Split(s, sep), sep) == s
    decreases |s|
  {
    if s != [] {
      var rest := Split(s[1..], sep);
      JoinSplit(s[1..], sep);
      if s[0] == sep {
        assert Split(s, sep)[1..] == rest;
      } else {
        JoinFirst(rest, [s[0]], sep);
      }
    }
  }

  /** Prefixing the first piece prefixes the joined string. */
  lemma JoinFirst(pieces: seq<string>, pre: string, sep: char)
    requires |pieces| >= 1
    ensures Join([pre + pieces[0]] + pieces[1..], sep) == pre + Join(pieces, sep)
  {
    var p := [pre + pieces[0]] + pieces[1..];
    if |pieces| > 1 {
      assert p[1..] == pieces[1..];
    }
  }

  /** Splitting at a separator splits the pieces there too. */
  lemma {:induction false} SplitAppend(x: string, y: string, sep: char)
    ensures Split(x + [sep] + y, sep) == Split(x, sep) + Split(y, sep)
    decreases |x|
  {
    if x == [] {
      assert x + [sep] + y == [sep] + y;
      assert ([sep] + y)[1..] == y;
    } else {
      assert (x + [sep] + y)[1..] == x[1..] + [sep] + y;
      SplitAppend(x[1..], y, sep);
      var rest := Split(x[1..], sep);
      if x[0] != sep {
        assert (rest + Split(y, sep))[1..] == rest[1..] + Split(y, sep);
      }
    }
  }

  // ---------------------------------------------------------------------
  // Scrambles.

  /** The state after the tokens in order. A run of tokens none of which
      is a move leaves the state as it was. */
  function ApplyTokens(toks: seq<string>, s: State): (r: State)
    requires Shaped(s)
    ensures Shaped(r)
    ensures (forall i :: 0 <= i < |toks| ==> ParseMove(toks[i]).None?) ==> r == s
    decreases |toks|
  {
    if toks == [] then s else ApplyToken(toks[|toks| - 1], ApplyTokens(toks[..|toks| - 1], s))
  }

  /** Applying two runs of tokens is applying the first, then the second. */
  lemma {:induction false} ApplyTokensAppend(a: seq<string>, b: seq<string>, s: State)
    requires Shaped(s)
    ensures ApplyTokens(a + b, s) == ApplyTokens(b, ApplyTokens(a, s))
    decreases |b|
  {
    if b == [] {
      assert a + b == a;
    } else {
      assert (a + b)[..|a + b| - 1] == a + b[..|b| - 1];
      ApplyTokensAppend(a, b[..|b| - 1], s);
    }
  }

  /** Tokens keep a well-formed state well-formed. */
  lemma {:induction false} ApplyTokensKeepsWellFormed(toks: seq<string>, s: State)
    requires WellFormed(s)
    ensures WellFormed(ApplyTokens(toks, s))
    decreases |toks|
  {
    if toks != [] {
      var before := ApplyTokens(toks[..|toks| - 1], s);
      ApplyTokensKeepsWellFormed(toks[..|toks| - 1], s);
      var tok := toks[|toks| - 1];
      if ParseMove(tok).Some? {
        ApplyMoveKeepsWellFormed(ParseMove(tok).value, before);
      }
    }
  }

  /** `scramble(seq)`: the state after every space-separated token. */
  function Scrambled(s: State, str: string): (r: State)
    requires Shaped(s)
    ensures Shaped(r)
  {
    ApplyTokens(Split(str, ' '), s)
  }

  /** A scramble string joined from two with a space scrambles as the two
      in turn. */
  lemma ScrambleAppend(s: State, x: string, y: string)
    requires Shaped(s)
    ensures Scrambled(s, x + " " + y) == Scrambled(Scrambled(s, x), y)
  {
    SplitAppend(x, y, ' ');
    assert x + " " + y == x + [' '] + y;
    ApplyTokensAppend(Split(x, ' '), Split(y, ' '), s);
  }

  /** A scramble keeps a well-formed state well-formed. */
  lemma ScrambleKeepsWellFormed(s: State, str: string)
    requires WellFormed(s)
    ensures WellFormed(Scrambled(s, str))
  {
    ApplyTokensKeepsWellFormed(Split(str, ' '), s);
  }

  /** Tokens keep the twist sum modulo 3 and the flip sum modulo 2. */
  lemma {:induction false} TokensKeepSums(toks: seq<string>, s: State)
    requires Shaped(s)
    ensures Sum(ApplyTokens(toks, s).co) % 3 == Sum(s.co) % 3
    ensures Sum(ApplyTokens(toks, s).eo) % 2 == Sum(s.eo) % 2
    decreases |toks|
  {
    if toks != [] {
      var before := ApplyTokens(toks[..|toks| - 1], s);
      TokensKeepSums(toks[..|toks| - 1], s);
      var tok := toks[|toks| - 1];
      if ParseMove(tok).Some? {
        MoveKeepsSums(ParseMove(tok).value, before);
      }
    }
  }

  /** A scramble keeps the twist sum modulo 3 and the flip sum modulo 2. */
  lemma ScrambleKeepsSums(s: State, str: string)
    requires Shaped(s)
    ensures Sum(Scrambled(s, str).co) % 3 == Sum(s.co) % 3
    ensures Sum(Scrambled(s, str).eo) % 2 == Sum(s.eo) % 2
  {
    TokensKeepSums(Split(str, ' '), s);
  }

  /** A scramble of a state whose twist and flip sums are 0 has a twist
      sum that is a multiple of 3 and a flip sum that is even. */
  lemma ScrambledFromZeroSums(s: State, str: string)
    requires Shaped(s) && Sum(s.co) == 0 && Sum(s.eo) == 0
    ensures Sum(Scrambled(s, str).co) % 3 == 0
    ensures Sum(Scrambled(s, str).eo) % 2 == 0
  {
    ScrambleKeepsSums(s, str);
  }

  /** Every scramble of a new cube has a twist sum that is a multiple of 3
      and a flip sum that is even. */
  lemma ScrambledFromFresh(str: string)
    ensures Sum(Scrambled(Fresh(), str).co) % 3 == 0
    ensures Sum(Scrambled(Fresh(), str).eo) % 2 == 0
  {
    ScrambledFromZeroSums(Fresh(), str);
  }

  // ---------------------------------------------------------------------
  // Undoing a scramble.

  /** The tokens of a move sequence. */
  function Tokens(ms: seq<Move>): (toks: seq<string>)
    ensures |toks| == |ms| && forall i :: 0 <= i < |ms| ==> toks[i] == MoveToken(ms[i])
  {
    seq(|ms|, i requires 0 <= i < |ms| => MoveToken(ms[i]))
  }

  /** The inverse moves in reverse order. */
  function Undo(ms: seq<Move>): (r: seq<Move>)
    ensures |r| == |ms| && forall i :: 0 <= i < |ms| ==> r[i] == Inverse(ms[|ms| - 1 - i])
  {
    if ms == [] then [] else [Inverse(ms[|ms| - 1])] + Undo(ms[..|ms| - 1])
  }

  /** The token of a move, alone, applies that move. */
  lemma ApplyMoveToken(m: Move, s: State)
    requires Shaped(s)
    ensures ApplyTokens([MoveToken(m)], s) == ApplyMove(m, s)
  {
    ParseMoveRecognisesExactlyMoveTokens(MoveToken(m), m);
    assert [MoveToken(m)][..0] == [];
  }

  /** Scrambling with the tokens of a move sequence and then with the tokens
      of its undo sequence leaves a well-formed cube as it was. */
  lemma {:induction false} ScrambleThenUndoRestores(ms: seq<Move>, s: State)
    requires WellFormed(s)
    ensures ApplyTokens(Tokens(ms) + Tokens(Undo(ms)), s) == s
    decreases |ms|
  {
    if ms != [] {
      var m := ms[|ms| - 1];
      var front := ms[..|ms| - 1];
      var a, b := Tokens(front), Tokens(Undo(front));
      var tm, ti := MoveToken(m), MoveToken(Inverse(m));
      assert Tokens(ms) == a + [tm];
      assert Tokens(Undo(ms)) == [ti] + b;
      assert Tokens(ms) + Tokens(Undo(ms)) == a + ([tm] + ([ti] + b));
      var mid := ApplyTokens(a, s);
      ApplyTokensKeepsWellFormed(a, s);
      ApplyTokensAppend(a, [tm] + ([ti] + b), s);
      ApplyTokensAppend([tm], [ti] + b, mid);
      ApplyMoveToken(m, mid);
      var moved := ApplyMove(m, mid);
      ApplyTokensAppend([ti], b, moved);
      ApplyMoveToken(Inverse(m), moved);
      InverseUndoesMove(m, mid);
      ScrambleThenUndoRestores(front, s);
      ApplyTokensAppend(a, b, s);
    }
  }
}
