/** The checksum of the WSG wire protocol as `Transport::crc16` computes it. It is not a textbook CRC:
    the register moves right by a byte while the table value comes from a left-shifting polynomial
    division. The module states the register update on bit-vectors, proves the loops of the source
    against it, and derives which corruptions the zero-residue test can and cannot see. */
module Crc {
  type byte = bv8
  type word = bv16

  const INITIAL: word := 0xffff

  // ----- the register -----

  function Xor(a: word, b: word): word { a ^ b }

  /** One of the eight division rounds behind a table value. */
  function Round(v: word): word {
    if v & 0x8000 != 0 then (v << 1) ^ 0x1021 else v << 1
  }

  function Rounds(v: word, n: nat): word
    decreases n
  {
    if n == 0 then v else Round(Rounds(v, n - 1))
  }

  function Seed(v: word): word { (v & 0x00ff) << 8 }

  /** The table value the source computes for the low byte of `v`. */
  function Table(v: word): word {
    Rounds(Seed(v), 8)
  }

  /** The register after a zero byte. Feeding a byte is the same as first folding it into the register. */
  function Next(c: word): word {
    Xor(Table(c), c >> 8)
  }

  function Wide(b: byte): word { b as word }

  function Step(c: word, b: byte): word {
    Next(Xor(c, Wide(b)))
  }

  /** The register after feeding `s` to a register holding `c`. */
  function From(c: word, s: seq<byte>): word
    decreases |s|
  {
    if s == [] then c else From(Step(c, s[0]), s[1..])
  }

  /** The checksum of a whole message. */
  function Of(s: seq<byte>): word { From(INITIAL, s) }

  lemma {:induction false} FromAppend(c: word, s: seq<byte>, t: seq<byte>)
    ensures From(c, s + t) == From(From(c, s), t)
    decreases |s|
  {
    hide Step;
    if s == [] {
      assert s + t == t;
    } else {
      assert (s + t)[0] == s[0] && (s + t)[1..] == s[1..] + t;
      FromAppend(Step(c, s[0]), s[1..], t);
    }
  }

  lemma FromPush(c: word, s: seq<byte>, b: byte)
    ensures From(c, s + [b]) == Step(From(c, s), b)
  {
    hide Step;
    FromAppend(c, s, [b]);
    assert [b][1..] == [];
    assert From(From(c, s), [b]) == From(Step(From(c, s), b), []);
  }

  lemma RoundOfSource(v: word)
    ensures (if v & 0x8000 != 0 then (v << 1) ^ 0x1021 else v << 1) == Round(v)
  {
  }

  lemma SeedOfSource(c: word, b: byte)
    ensures Seed(Xor(c, Wide(b))) == ((c ^ (b as word)) & 0x00ff) << 8
  {
  }

  lemma TableOfSource(c: word, b: byte, seed: word)
    requires seed == Seed(Xor(c, Wide(b)))
    ensures Rounds(seed, 8) == Table(Xor(c, Wide(b)))
  {
    hide Rounds, Seed, Xor, Wide;
  }

  lemma ByteStaysLow(c: word, b: byte)
    ensures Xor(c, Wide(b)) >> 8 == c >> 8
  {
  }

  lemma XorOfSource(a: word, b: word)
    ensures a ^ b == Xor(a, b)
  {
  }

  lemma StepOfSource(c: word, b: byte, tableValue: word)
    requires tableValue == Table(Xor(c, Wide(b)))
    ensures tableValue ^ (c >> 8) == Step(c, b)
  {
    hide Table, Wide, Xor;
    ByteStaysLow(c, b);
    XorOfSource(tableValue, c >> 8);
  }

  /** The inner loop of `crc16`: eight conditional rounds. */
  method TableValue(seed: word) returns (tableValue: word)
    ensures tableValue == Rounds(seed, 8)
  {
    hide Round;
    tableValue := seed;
    var bit := 0;
    while bit < 8
      invariant 0 <= bit <= 8
      invariant tableValue == Rounds(seed, bit)
    {
      RoundOfSource(tableValue);
      tableValue := if tableValue & 0x8000 != 0 then (tableValue << 1) ^ 0x1021 else tableValue << 1;
      bit := bit + 1;
    }
  }

  /** `crc16` over the first `size` bytes of a buffer. */
  method Crc16(data: seq<byte>, size: nat) returns (crc: word)
    requires size <= |data|
    ensures crc == Of(data[..size])
  {
    hide Step, Rounds, Table, Seed, Xor, Wide;
    crc := INITIAL;
    var offset := 0;
    while offset < size
      invariant 0 <= offset <= size
      invariant crc == Of(data[..offset])
    {
      var seed: word := ((crc ^ (data[offset] as word)) & 0x00ff) << 8;
      var tableValue := TableValue(seed);
      SeedOfSource(crc, data[offset]);
      TableOfSource(crc, data[offset], seed);
      StepOfSource(crc, data[offset], tableValue);
      FromPush(INITIAL, data[..offset], data[offset]);
      assert data[..offset + 1] == data[..offset] + [data[offset]];
      crc := tableValue ^ (crc >> 8);
      offset := offset + 1;
    }
  }

  // ----- exclusive or on words -----

  lemma XorComm(a: word, b: word)
    ensures Xor(a, b) == Xor(b, a)
  {
  }

  lemma XorAssoc(a: word, b: word, c: word)
    ensures Xor(Xor(a, b), c) == Xor(a, Xor(b, c))
  {
  }

  lemma XorZero(a: word)
    ensures Xor(a, 0) == a
    ensures Xor(0, a) == a
    ensures Xor(a, a) == 0
  {
  }

  lemma XorSolve(a: word, b: word, k: word)
    ensures Xor(a, b) == k <==> b == Xor(a, k)
  {
    hide Xor;
    XorAssoc(a, a, k);
    XorAssoc(a, a, b);
    XorZero(a);
    XorZero(b);
    XorZero(k);
  }

  lemma XorSwap(a: word, b: word, c: word, d: word)
    ensures Xor(Xor(a, b), Xor(c, d)) == Xor(Xor(a, c), Xor(b, d))
  {
    hide Xor;
    XorAssoc(a, b, Xor(c, d));
    XorAssoc(b, c, d);
    XorComm(b, c);
    XorAssoc(c, b, d);
    XorAssoc(a, c, Xor(b, d));
  }

  lemma XorLeft12(s: word, t: word)
    ensures Xor(s, t) << 12 == Xor(s << 12, t << 12)
  {
  }

  lemma XorLeft5(s: word, t: word)
    ensures Xor(s, t) << 5 == Xor(s << 5, t << 5)
  {
  }

  lemma XorRight4(s: word, t: word)
    ensures Xor(s, t) >> 4 == Xor(s >> 4, t >> 4)
  {
  }

  lemma XorRight8(s: word, t: word)
    ensures Xor(s, t) >> 8 == Xor(s >> 8, t >> 8)
  {
  }

  lemma XorMask(s: word, t: word)
    ensures Xor(s, t) & 0x00ff == Xor(s & 0x00ff, t & 0x00ff)
  {
  }

  lemma XorWide(a: byte, b: byte)
    ensures Wide(a ^ b) == Xor(Wide(a), Wide(b))
  {
  }

  // ----- the register update is linear -----

  function Fold(x: word): word { Xor(x, x >> 4) }

  function Spread(s: word): word { Xor(Xor(s << 12, s << 5), s) }

  /** The eight conditional rounds collapse to shifts of the folded low byte. */
  lemma TableClosed(v: word)
    ensures Table(v) == Spread(Fold(v & 0x00ff))
  {
  }

  lemma FoldLinear(s: word, t: word)
    ensures Fold(Xor(s, t)) == Xor(Fold(s), Fold(t))
  {
    hide Xor;
    XorRight4(s, t);
    XorSwap(s, t, s >> 4, t >> 4);
  }

  lemma SpreadLinear(s: word, t: word)
    ensures Spread(Xor(s, t)) == Xor(Spread(s), Spread(t))
  {
    hide Xor;
    XorLeft12(s, t);
    XorLeft5(s, t);
    XorSwap(s << 12, t << 12, s << 5, t << 5);
    XorSwap(Xor(s << 12, s << 5), Xor(t << 12, t << 5), s, t);
  }

  lemma TableLinear(c: word, d: word)
    ensures Table(Xor(c, d)) == Xor(Table(c), Table(d))
  {
    hide Table, Xor, Fold, Spread;
    TableClosed(c);
    TableClosed(d);
    TableClosed(Xor(c, d));
    XorMask(c, d);
    FoldLinear(c & 0x00ff, d & 0x00ff);
    SpreadLinear(Fold(c & 0x00ff), Fold(d & 0x00ff));
  }

  /** The register update distributes over exclusive or. */
  lemma NextLinear(c: word, d: word)
    ensures Next(Xor(c, d)) == Xor(Next(c), Next(d))
  {
    hide Table, Xor;
    TableLinear(c, d);
    XorRight8(c, d);
    XorSwap(Table(c), Table(d), c >> 8, d >> 8);
  }

  lemma StepLinear(c: word, d: word, a: byte, b: byte)
    ensures Xor(Step(c, a), Step(d, b)) == Next(Xor(Xor(c, d), Wide(a ^ b)))
  {
    hide Next, Xor, Wide;
    NextLinear(Xor(c, Wide(a)), Xor(d, Wide(b)));
    XorSwap(c, Wide(a), d, Wide(b));
    XorWide(a, b);
  }

  // ----- which corruptions the residue test sees -----

  /** The differences that some common suffix erases. */
  predicate Erasable(d: word) {
    d in {0x0000, 0xa189, 0xc30a, 0x6283, 0x961d, 0x3794, 0x5517, 0xf49e}
  }

  /** The differences that two bytes erase. */
  predicate ErasableByTwo(d: word) {
    d in {0x0000, 0xa189, 0xc30a, 0x6283}
  }

  lemma ErasableMoves(d: word)
    ensures ErasableByTwo(d) <==> Next(Next(d)) == 0
    ensures Erasable(d) <==> ErasableByTwo(Next(d))
    ensures Erasable(d) <==> Erasable(Next(d))
  {
    hide Table;
    TableClosed(d);
    TableClosed(Next(d));
  }

  lemma ByteNotErasable(e: byte)
    ensures Erasable(Next(Wide(e))) <==> e == 0
  {
    hide Table;
    TableClosed(Wide(e));
  }

  /** A difference after `n` further bytes that both messages share. */
  function Fade(d: word, n: nat): word
    decreases n
  {
    if n == 0 then d else Fade(Next(d), n - 1)
  }

  lemma StepSame(c: word, d: word, b: byte)
    ensures Xor(Step(c, b), Step(d, b)) == Next(Xor(c, d))
  {
    hide Next, Xor, Step;
    StepLinear(c, d, b, b);
    assert Wide(b ^ b) == 0;
    XorZero(Xor(c, d));
  }

  /** A common suffix moves the difference of two registers without looking at the suffix. */
  lemma {:induction false} FromDifference(c: word, d: word, s: seq<byte>)
    ensures Xor(From(c, s), From(d, s)) == Fade(Xor(c, d), |s|)
    decreases |s|
  {
    hide Next, Xor, Step;
    if s != [] {
      StepSame(c, d, s[0]);
      FromDifference(Step(c, s[0]), Step(d, s[0]), s[1..]);
    }
  }

  lemma ErasableZero()
    ensures Erasable(0)
  {
  }

  lemma FadeThree(d: word)
    ensures Fade(d, 3) == Next(Next(Next(d)))
  {
    hide Next;
    assert Fade(d, 3) == Fade(Next(d), 2) == Fade(Next(Next(d)), 1) == Fade(Next(Next(Next(d))), 0);
  }

  lemma {:induction false} FadesToZero(d: word, n: nat)
    ensures Fade(d, n) == 0 ==> Erasable(d)
    ensures n >= 3 ==> (Fade(d, n) == 0 <==> Erasable(d))
    decreases n
  {
    hide Next, Erasable, ErasableByTwo;
    ErasableZero();
    if n != 0 {
      ErasableMoves(d);
      FadesToZero(Next(d), n - 1);
      if n == 3 {
        FadeThree(d);
        ErasableMoves(Next(d));
      }
    }
  }

  function Raised(b: byte): word { (b as word) << 8 }

  /** Two bytes as the little-endian word they spell. */
  function Pair(a: byte, b: byte): word {
    Xor(Wide(a), Raised(b))
  }

  lemma RaisedMovesDown(b: byte)
    ensures Next(Raised(b)) == Wide(b)
  {
    hide Table;
    TableClosed(Raised(b));
  }

  /** Feeding two bytes is folding their word into the register and then feeding two zeros. */
  lemma FeedPair(c: word, a: byte, b: byte)
    ensures Step(Step(c, a), b) == Next(Next(Xor(c, Pair(a, b))))
  {
    hide Next, Xor, Wide, Raised;
    RaisedMovesDown(b);
    XorAssoc(c, Wide(a), Raised(b));
    NextLinear(Xor(c, Wide(a)), Raised(b));
  }

  lemma FromPair(c: word, a: byte, b: byte)
    ensures From(c, [a, b]) == Next(Next(Xor(c, Pair(a, b))))
  {
    hide Next, Step, Pair, Xor;
    FeedPair(c, a, b);
    assert [a, b][1..] == [b] && [b][1..] == [];
    assert From(c, [a, b]) == From(Step(c, a), [b]) == From(Step(Step(c, a), b), []);
  }

  lemma Translates(c: word, t: word)
    ensures ErasableByTwo(Xor(c, t)) <==> t in {c, Xor(c, 0xa189), Xor(c, 0xc30a), Xor(c, 0x6283)}
  {
    hide Xor;
    XorZero(c);
    XorSolve(c, t, 0);
    XorSolve(c, t, 0xa189);
    XorSolve(c, t, 0xc30a);
    XorSolve(c, t, 0x6283);
  }

  /** Exactly four trailers pass the residue test after a body `m`: the checksum of the body and its three
      translates by the differences that two bytes erase. */
  lemma AcceptedTrailers(m: seq<byte>, a: byte, b: byte)
    ensures Of(m + [a, b]) == 0 <==>
            Pair(a, b) in {Of(m), Xor(Of(m), 0xa189), Xor(Of(m), 0xc30a), Xor(Of(m), 0x6283)}
  {
    hide Next, Step, From, Pair, ErasableByTwo, Erasable;
    FromAppend(INITIAL, m, [a, b]);
    FromPair(Of(m), a, b);
    ErasableMoves(Xor(Of(m), Pair(a, b)));
    Translates(Of(m), Pair(a, b));
  }

  lemma FadePair(d: word, n: nat)
    ensures Fade(Next(Next(d)), n) == 0 <==> if n == 0 then ErasableByTwo(d) else Erasable(d)
  {
    hide Next, Erasable, ErasableByTwo;
    ErasableMoves(d);
    if n > 0 {
      assert Fade(d, n + 2) == Fade(Next(d), n + 1) == Fade(Next(Next(d)), n);
      FadesToZero(d, n + 2);
    }
  }

  lemma XorRaised(a: byte, b: byte)
    ensures Raised(a ^ b) == Xor(Raised(a), Raised(b))
  {
  }

  lemma PairLinear(a: byte, b: byte, a': byte, b': byte)
    ensures Xor(Pair(a, b), Pair(a', b')) == Pair(a ^ a', b ^ b')
  {
    hide Xor, Wide, Raised;
    XorSwap(Wide(a), Raised(b), Wide(a'), Raised(b'));
    XorWide(a, a');
    XorRaised(b, b');
  }

  lemma PairDifference(c: word, a: byte, b: byte, a': byte, b': byte)
    ensures Xor(Xor(c, Pair(a, b)), Xor(c, Pair(a', b'))) == Pair(a ^ a', b ^ b')
  {
    hide Xor, Pair;
    XorSwap(c, Pair(a, b), c, Pair(a', b'));
    XorZero(c);
    XorZero(Xor(Pair(a, b), Pair(a', b')));
    PairLinear(a, b, a', b');
  }

  lemma SplitMessage(p: seq<byte>, a: byte, b: byte, t: seq<byte>)
    ensures Of(p + [a, b] + t) == From(Next(Next(Xor(Of(p), Pair(a, b)))), t)
  {
    hide Next, Step, From, Pair, Xor;
    FromAppend(INITIAL, p + [a, b], t);
    FromAppend(INITIAL, p, [a, b]);
    FromPair(Of(p), a, b);
  }

  /** Two messages that differ at most in two adjacent bytes collide exactly when the difference is one of
      eight words, or of four when nothing follows the damaged bytes. */
  lemma AdjacentCorruption(p: seq<byte>, a: byte, b: byte, a': byte, b': byte, t: seq<byte>)
    ensures Of(p + [a, b] + t) == Of(p + [a', b'] + t) <==>
            if t == [] then ErasableByTwo(Pair(a ^ a', b ^ b')) else Erasable(Pair(a ^ a', b ^ b'))
  {
    hide Next, Step, From, Pair, Erasable, ErasableByTwo, Xor;
    var c, w, w' := Of(p), Pair(a, b), Pair(a', b');
    var x, y := Next(Next(Xor(c, w))), Next(Next(Xor(c, w')));
    SplitMessage(p, a, b, t);
    SplitMessage(p, a', b', t);
    FromDifference(x, y, t);
    XorSolve(From(x, t), From(y, t), 0);
    XorZero(From(x, t));
    PairDifference(c, a, b, a', b');
    NextLinear(Next(Xor(c, w)), Next(Xor(c, w')));
    NextLinear(Xor(c, w), Xor(c, w'));
    FadePair(Pair(a ^ a', b ^ b'), |t|);
  }

  lemma LastByte(c: word, a: byte, a': byte)
    requires a != a'
    ensures Step(c, a) != Step(c, a')
  {
    hide Next, Xor, Wide, Step, Erasable;
    StepLinear(c, c, a, a');
    XorZero(c);
    XorZero(Step(c, a));
    XorZero(Wide(a ^ a'));
    ByteNotErasable(a ^ a');
    ErasableZero();
  }

  lemma SinglePair(a: byte, a': byte, b: byte)
    requires a != a'
    ensures !Erasable(Pair(a ^ a', b ^ b)) && !ErasableByTwo(Pair(a ^ a', b ^ b))
  {
  }

  /** Changing any one byte of a message changes its checksum; in particular no frame with one damaged byte
      passes the residue test. */
  lemma SingleByteCaught(s: seq<byte>, i: nat, e: byte)
    requires i < |s| && s[i] != e
    ensures Of(s[i := e]) != Of(s)
  {
    hide Next, Step, From, Pair, Erasable, ErasableByTwo;
    if i + 1 < |s| {
      var p, t := s[..i], s[i + 2..];
      assert s == p + [s[i], s[i + 1]] + t;
      assert s[i := e] == p + [e, s[i + 1]] + t;
      AdjacentCorruption(p, s[i], s[i + 1], e, s[i + 1], t);
      SinglePair(s[i], e, s[i + 1]);
    } else {
      var p := s[..i];
      assert s == p + [s[i]] && s[i := e] == p + [e];
      FromPush(INITIAL, p, s[i]);
      FromPush(INITIAL, p, e);
      LastByte(Of(p), s[i], e);
    }
  }

  lemma FromThree(c: word, a: byte, b: byte, d: byte)
    ensures From(c, [a, b, d]) == Step(Step(Step(c, a), b), d)
  {
    hide Step;
    FromPush(c, [], a);
    FromPush(c, [a], b);
    FromPush(c, [a, b], d);
    assert [] + [a] == [a] && [a] + [b] == [a, b] && [a, b] + [d] == [a, b, d];
  }

  lemma VectorSteps()
    ensures Step(0xffff, 0xaa) == 0x0aaf
    ensures Step(0x0aaf, 0xaa) == 0x50af
    ensures Step(0x50af, 0xaa) == 0x50f5
    ensures Step(0x50f5, 0x40) == 0xf72e
    ensures Step(0xf72e, 0x03) == 0xf538
    ensures Step(0xf538, 0x00) == 0xb7ae
    ensures Step(0xb7ae, 0x00) == 0x5493
    ensures Step(0x5493, 0x00) == 0xb38e
    ensures Step(0xb38e, 0x00) == 0x70f5
  {
    hide Table;
    TableClosed(0xffff ^ 0xaa);
    TableClosed(0x0aaf ^ 0xaa);
    TableClosed(0x50af ^ 0xaa);
    TableClosed(0x50f5 ^ 0x40);
    TableClosed(0xf72e ^ 0x03);
    TableClosed(0xf538 ^ 0x00);
    TableClosed(0xb7ae ^ 0x00);
    TableClosed(0x5493 ^ 0x00);
    TableClosed(0xb38e ^ 0x00);
  }

  /** The vectors of the protocol that the transport's own tests check. */
  lemma KnownVectors()
    ensures Of([0xaa, 0xaa, 0xaa]) == 0x50f5
    ensures Of([0xaa, 0xaa, 0xaa, 0x40, 0x03, 0x00, 0x00, 0x00, 0x00]) == 0x70f5
  {
    var p: seq<byte> := [0xaa, 0xaa, 0xaa];
    var q: seq<byte> := [0x40, 0x03, 0x00];
    var r: seq<byte> := [0x00, 0x00, 0x00];
    VectorSteps();
    hide Step;
    FromThree(INITIAL, 0xaa, 0xaa, 0xaa);
    FromThree(0x50f5, 0x40, 0x03, 0x00);
    FromThree(0xb7ae, 0x00, 0x00, 0x00);
    FromAppend(INITIAL, p, q + r);
    FromAppend(0x50f5, q, r);
    assert p + (q + r) == [0xaa, 0xaa, 0xaa, 0x40, 0x03, 0x00, 0x00, 0x00, 0x00];
  }
}
