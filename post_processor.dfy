/**
 * The post-processing template of the Llama fast tokenizer: from the BOS and EOS
 * tokens, their ids and the two flags `add_bos_token` / `add_eos_token`, the
 * single-sequence pattern, the pair-sequence pattern and the special-token list
 * that `update_post_processor` installs.
 */
module PostProcessor {
  import opened PyText

  /** A special token declared to the post-processor: its text and its id. */
  datatype SpecialToken = SpecialToken(token: string, id: int)

  /** What `update_post_processor` installs in the engine, as one value. */
  datatype Template = Template(single: string, pair: string, specialTokens: seq<SpecialToken>)

  /** Python's `text * flag` for a boolean flag: the text once if the flag is set, else nothing. */
  function Times<T>(s: seq<T>, flag: bool): seq<T> {
    if flag then s else []
  }

  /** The f-string for `single`: `{(bos+':0 ') * add_bos}$A:0{(' '+eos+':0') * add_eos}`. */
  function SinglePattern(bos: string, eos: string, addBos: bool, addEos: bool): string {
    Times(bos + ":0 ", addBos) + "$A:0" + Times(" " + eos + ":0", addEos)
  }

  /** The f-string for `pair`: `single`, then the second sequence tagged with segment 1. */
  function PairPattern(bos: string, eos: string, addBos: bool, addEos: bool): string {
    SinglePattern(bos, eos, addBos, addEos) + Times(" " + bos + ":1", addBos) + " $B:1" + Times(" " + eos + ":1", addEos)
  }

  /** The special-token list: one entry per set flag, the BOS entry before the EOS entry. */
  function SpecialTokens(bos: string, bosId: int, eos: string, eosId: int, addBos: bool, addEos: bool): (r: seq<SpecialToken>)
    ensures |r| == (if addBos then 1 else 0) + (if addEos then 1 else 0)
    ensures addBos ==> r[0] == SpecialToken(bos, bosId)
    ensures addEos ==> r[|r| - 1] == SpecialToken(eos, eosId)
    ensures forall t :: t in r ==> (addBos && t == SpecialToken(bos, bosId)) || (addEos && t == SpecialToken(eos, eosId))
  {
    Times([SpecialToken(bos, bosId)], addBos) + Times([SpecialToken(eos, eosId)], addEos)
  }

  /** The whole template, a function of the two tokens, their ids and the two flags only. */
  function Derive(bos: string, bosId: int, eos: string, eosId: int, addBos: bool, addEos: bool): Template {
    Template(SinglePattern(bos, eos, addBos, addEos),
             PairPattern(bos, eos, addBos, addEos),
             SpecialTokens(bos, bosId, eos, eosId, addBos, addEos))
  }

  /** With both flags off the patterns carry the sequences alone and no special token is declared. */
  lemma NoFlagsTemplate(bos: string, bosId: int, eos: string, eosId: int)
    ensures Derive(bos, bosId, eos, eosId, false, false) == Template("$A:0", "$A:0 $B:1", [])
  {
  }

  /** The template Llama uses with both flags on and the tokens `<s>` and `</s>`. */
  lemma BothFlagsTemplate(bosId: int, eosId: int)
    ensures Derive("<s>", bosId, "</s>", eosId, true, true)
         == Template("<s>:0 $A:0 </s>:0", "<s>:0 $A:0 </s>:0 <s>:1 $B:1 </s>:1",
                     [SpecialToken("<s>", bosId), SpecialToken("</s>", eosId)])
  {
    var single := "<s>" + ":0 " + "$A:0" + (" " + "</s>" + ":0");
    assert "<s>" + ":0 " + "$A:0" == "<s>:0 $A:0";
    assert " " + "</s>" + ":0" == " </s>:0";
    assert single == "<s>:0 $A:0 </s>:0";
    assert " " + "<s>" + ":1" == " <s>:1";
    assert " " + "</s>" + ":1" == " </s>:1";
    assert single + " <s>:1" + " $B:1" + " </s>:1" == "<s>:0 $A:0 </s>:0 <s>:1 $B:1 </s>:1";
  }

  /** The pair pattern extends the single pattern with the second sequence and its tokens. */
  lemma PairExtendsSingle(bos: string, eos: string, addBos: bool, addEos: bool)
    ensures var single := SinglePattern(bos, eos, addBos, addEos);
            var pair := PairPattern(bos, eos, addBos, addEos);
            && single <= pair
            && pair[|single|..] == Times(" " + bos + ":1", addBos) + " $B:1" + Times(" " + eos + ":1", addEos)
  {
    // Unfolding alone suffices on most solver seeds but can run out of resource on others;
    // the generic lemma keeps the string literals out of the concatenation reasoning.
    AppendedSuffix(SinglePattern(bos, eos, addBos, addEos), Times(" " + bos + ":1", addBos), " $B:1", Times(" " + eos + ":1", addEos));
  }

  /** Appending three strings to `s` keeps `s` as a prefix, followed by exactly those three. */
  lemma AppendedSuffix(s: string, a: string, b: string, c: string)
    ensures s <= s + a + b + c
    ensures (s + a + b + c)[|s|..] == a + b + c
  {
  }

  /** The pieces a pattern gains from a flag: `text` alone if the flag is set, none otherwise. */
  function Piece(text: string, flag: bool): seq<string> {
    Times([text], flag)
  }

  /** The pieces of `x`? `placeholder` `y`?: a sequence placeholder between optional special tokens. */
  function SegmentPieces(x: string, placeholder: string, y: string, withX: bool, withY: bool): seq<string> {
    Piece(x, withX) + [placeholder] + Piece(y, withY)
  }

  /** The f-string shape `{(x+' ')*wx}P{(' '+y)*wy}` is the pieces joined by single spaces. */
  lemma SegmentIsJoin(x: string, placeholder: string, y: string, withX: bool, withY: bool)
    ensures Times(x + " ", withX) + placeholder + Times(" " + y, withY) == JoinSpace(SegmentPieces(x, placeholder, y, withX, withY))
  {
    var ps := SegmentPieces(x, placeholder, y, withX, withY);
    if withX && withY {
      assert ps == [x, placeholder, y];
      assert ps[1..] == [placeholder, y];
      assert JoinSpace(ps[1..]) == placeholder + " " + y;
    } else if withX {
      assert ps == [x, placeholder];
      assert JoinSpace(ps) == x + " " + placeholder;
    } else if withY {
      assert ps == [placeholder, y];
      assert JoinSpace(ps) == placeholder + " " + y;
    } else {
      assert ps == [placeholder];
    }
  }

  /** Read as space-separated pieces, the single pattern is `bos:0`? `$A:0` `eos:0`?. */
  lemma SinglePieces(bos: string, eos: string, addBos: bool, addEos: bool)
    ensures SinglePattern(bos, eos, addBos, addEos) == JoinSpace(SegmentPieces(bos + ":0", "$A:0", eos + ":0", addBos, addEos))
    ensures ' ' !in bos && ' ' !in eos ==>
              Split(SinglePattern(bos, eos, addBos, addEos)) == SegmentPieces(bos + ":0", "$A:0", eos + ":0", addBos, addEos)
  {
    var ps := SegmentPieces(bos + ":0", "$A:0", eos + ":0", addBos, addEos);
    assert SinglePattern(bos, eos, addBos, addEos) == Times((bos + ":0") + " ", addBos) + "$A:0" + Times(" " + (eos + ":0"), addEos);
    SegmentIsJoin(bos + ":0", "$A:0", eos + ":0", addBos, addEos);
    if ' ' !in bos && ' ' !in eos {
      assert ' ' !in bos + ":0" && ' ' !in eos + ":0";
      SplitJoinSpace(ps);
    }
  }

  /** The pair pattern is the single pattern, a space, and the second segment's f-string shape. */
  lemma PairIsSingleThenSecond(bos: string, eos: string, addBos: bool, addEos: bool)
    ensures PairPattern(bos, eos, addBos, addEos)
         == SinglePattern(bos, eos, addBos, addEos) + " "
          + (Times((bos + ":1") + " ", addBos) + "$B:1" + Times(" " + (eos + ":1"), addEos))
  {
    // As in PairExtendsSingle: routing through SpaceBeforeSegment keeps this proof small on every seed.
    assert " " + bos + ":1" == " " + (bos + ":1");
    assert " " + eos + ":1" == " " + (eos + ":1");
    assert " $B:1" == " " + "$B:1";
    SpaceBeforeSegment(SinglePattern(bos, eos, addBos, addEos), bos + ":1", "$B:1", Times(" " + (eos + ":1"), addEos), addBos);
  }

  /** Moving the separator of an optional leading token `x` in front of it leaves the text unchanged. */
  lemma SpaceBeforeSegment(s: string, x: string, p: string, rest: string, flag: bool)
    ensures s + Times(" " + x, flag) + (" " + p) + rest == s + " " + (Times(x + " ", flag) + p + rest)
  {
  }

  /** The pieces of the pair pattern: the single pattern's, then `bos:1`? `$B:1` `eos:1`?. */
  function PairPatternPieces(bos: string, eos: string, addBos: bool, addEos: bool): seq<string> {
    SegmentPieces(bos + ":0", "$A:0", eos + ":0", addBos, addEos) + SegmentPieces(bos + ":1", "$B:1", eos + ":1", addBos, addEos)
  }

  /** The pair pattern is its pieces joined by single spaces. */
  lemma PairIsJoin(bos: string, eos: string, addBos: bool, addEos: bool)
    ensures PairPattern(bos, eos, addBos, addEos) == JoinSpace(PairPatternPieces(bos, eos, addBos, addEos))
  {
    var first := SegmentPieces(bos + ":0", "$A:0", eos + ":0", addBos, addEos);
    var second := SegmentPieces(bos + ":1", "$B:1", eos + ":1", addBos, addEos);
    PairIsSingleThenSecond(bos, eos, addBos, addEos);
    SinglePieces(bos, eos, addBos, addEos);
    SegmentIsJoin(bos + ":1", "$B:1", eos + ":1", addBos, addEos);
    JoinSpaceAppend(first, second);
  }

  /** Read as space-separated pieces, the pair pattern is exactly its pieces. */
  lemma PairPieces(bos: string, eos: string, addBos: bool, addEos: bool)
    requires ' ' !in bos && ' ' !in eos
    ensures Split(PairPattern(bos, eos, addBos, addEos)) == PairPatternPieces(bos, eos, addBos, addEos)
  {
    var ps := PairPatternPieces(bos, eos, addBos, addEos);
    PairIsJoin(bos, eos, addBos, addEos);
    assert ' ' !in bos + ":0" && ' ' !in eos + ":0" && ' ' !in bos + ":1" && ' ' !in eos + ":1";
    assert forall k :: 0 <= k < |ps| ==> ' ' !in ps[k];
    SplitJoinSpace(ps);
  }

  /** A piece names a declared special token, tagged with `tag`. */
  predicate Declared(piece: string, tag: string, specials: seq<SpecialToken>) {
    exists t :: t in specials && piece == t.token + tag
  }

  /** Each piece of one segment is its placeholder or a listed special token with the segment's tag. */
  lemma SegmentUsesDeclaredTokens(bos: string, bosId: int, eos: string, eosId: int, addBos: bool, addEos: bool,
                                  placeholder: string, tag: string, specials: seq<SpecialToken>)
    requires addBos ==> SpecialToken(bos, bosId) in specials
    requires addEos ==> SpecialToken(eos, eosId) in specials
    ensures forall p :: p in SegmentPieces(bos + tag, placeholder, eos + tag, addBos, addEos) ==>
              p == placeholder || Declared(p, tag, specials)
  {
    forall p | p in SegmentPieces(bos + tag, placeholder, eos + tag, addBos, addEos)
      ensures p == placeholder || Declared(p, tag, specials)
    {
      if p == bos + tag && addBos {
        assert p == SpecialToken(bos, bosId).token + tag;
      } else if p == eos + tag && addEos {
        assert p == SpecialToken(eos, eosId).token + tag;
      }
    }
  }

  /** Every piece of either pattern is a sequence placeholder or a special token of the list. */
  lemma PatternsUseDeclaredTokens(bos: string, bosId: int, eos: string, eosId: int, addBos: bool, addEos: bool)
    requires ' ' !in bos && ' ' !in eos
    ensures var t := Derive(bos, bosId, eos, eosId, addBos, addEos);
            && (forall p :: p in Split(t.single) ==> p == "$A:0" || Declared(p, ":0", t.specialTokens))
            && (forall p :: p in Split(t.pair) ==>
                  p == "$A:0" || p == "$B:1" || Declared(p, ":0", t.specialTokens) || Declared(p, ":1", t.specialTokens))
  {
    var specials := SpecialTokens(bos, bosId, eos, eosId, addBos, addEos);
    assert addBos ==> SpecialToken(bos, bosId) in specials;
    assert addEos ==> SpecialToken(eos, eosId) in specials;
    SinglePieces(bos, eos, addBos, addEos);
    PairPieces(bos, eos, addBos, addEos);
    SegmentUsesDeclaredTokens(bos, bosId, eos, eosId, addBos, addEos, "$A:0", ":0", specials);
    SegmentUsesDeclaredTokens(bos, bosId, eos, eosId, addBos, addEos, "$B:1", ":1", specials);
  }

  /** Every special token of the list is used by the single pattern and twice by the pair pattern. */
  lemma DeclaredTokensAreUsed(bos: string, bosId: int, eos: string, eosId: int, addBos: bool, addEos: bool)
    requires ' ' !in bos && ' ' !in eos
    ensures var t := Derive(bos, bosId, eos, eosId, addBos, addEos);
            forall s :: s in t.specialTokens ==>
              && (s.token + ":0") in Split(t.single)
              && (s.token + ":0") in Split(t.pair)
              && (s.token + ":1") in Split(t.pair)
  {
    var t := Derive(bos, bosId, eos, eosId, addBos, addEos);
    SinglePieces(bos, eos, addBos, addEos);
    PairPieces(bos, eos, addBos, addEos);
    var first := SegmentPieces(bos + ":0", "$A:0", eos + ":0", addBos, addEos);
    var second := SegmentPieces(bos + ":1", "$B:1", eos + ":1", addBos, addEos);
    assert Split(t.single) == first && Split(t.pair) == first + second;
    assert addBos ==> bos + ":0" in first && bos + ":1" in second;
    assert addEos ==> eos + ":0" in first && eos + ":1" in second;
  }

  /** The flags a single pattern was built with: a set flag puts a token piece before or after `$A:0`. */
  function FlagsOf(single: string): (bool, bool) {
    var pieces := Split(single);
    (pieces[0] != "$A:0", pieces[|pieces| - 1] != "$A:0")
  }

  /** The single pattern records both flags: they can be read back from it. */
  lemma FlagsRoundTrip(bos: string, eos: string, addBos: bool, addEos: bool)
    requires ' ' !in bos && ' ' !in eos && bos != "$A" && eos != "$A"
    ensures FlagsOf(SinglePattern(bos, eos, addBos, addEos)) == (addBos, addEos)
  {
    SinglePieces(bos, eos, addBos, addEos);
    assert (bos + ":0")[..|bos|] == bos && (eos + ":0")[..|eos|] == eos;
    assert "$A:0"[..2] == "$A";
  }
}
