/** The obfuscation of the configuration file: a keystream from a 32-bit xorshift generator,
    seeded by an FNV-1a hash of the operator's key. */
module ConfigCodec {
  import opened Options

  type Bytes = seq<bv8>

  /** "OMPMENC1" */
  const MAGIC: Bytes := [0x4F, 0x4D, 0x50, 0x4D, 0x45, 0x4E, 0x43, 0x31]

  const FNV_OFFSET: bv32 := 2166136261
  const FNV_PRIME: bv32 := 16777619
  const FALLBACK_SEED: bv32 := 0x6F6D704D

  // --- The generator ------------------------------------------------------------------------

  function Left5(s: bv32): bv32 { s ^ (s << 5) }
  function Left10(s: bv32): bv32 { s ^ (s << 10) }
  function Left13(s: bv32): bv32 { s ^ (s << 13) }
  function Left20(s: bv32): bv32 { s ^ (s << 20) }
  function Left26(s: bv32): bv32 { s ^ (s << 26) }
  function Right17(s: bv32): bv32 { s ^ (s >> 17) }

  /** One xorshift32 step. */
  function NextState(s: bv32): bv32 {
    Left5(Right17(Left13(s)))
  }

  /** Shifting twice by the same amount doubles the shift, until nothing is left. */
  function PreviousState(s: bv32): bv32 {
    Left26(Left13(Right17(Left20(Left10(Left5(s))))))
  }

  lemma Twice5(s: bv32)
    ensures Left5(Left5(s)) == Left10(s)
  {
    assert Left5(s ^ (s << 5)) == Left10(s);
  }

  lemma Twice10(s: bv32)
    ensures Left10(Left10(s)) == Left20(s)
  {
    assert Left10(s ^ (s << 10)) == Left20(s);
  }

  lemma Twice20(s: bv32)
    ensures Left20(Left20(s)) == s
  {
    assert Left20(s ^ (s << 20)) == s;
  }

  lemma Twice13(s: bv32)
    ensures Left13(Left13(s)) == Left26(s)
  {
    assert Left13(s ^ (s << 13)) == Left26(s);
  }

  lemma Twice26(s: bv32)
    ensures Left26(Left26(s)) == s
  {
    assert Left26(s ^ (s << 26)) == s;
  }

  lemma Twice17(s: bv32)
    ensures Right17(Right17(s)) == s
  {
    assert Right17(s ^ (s >> 17)) == s;
  }

  /** The step loses nothing: it can be taken back. */
  lemma StepIsInvertible(s: bv32)
    ensures PreviousState(NextState(s)) == s
  {
    var a := Left13(s);
    var b := Right17(a);
    Twice5(b);
    Twice10(b);
    Twice20(b);
    Twice17(a);
    Twice13(s);
    Twice26(s);
  }

  lemma StepKeepsNonzero(s: bv32)
    requires s != 0
    ensures NextState(s) != 0
  {
    StepIsInvertible(s);
    assert PreviousState(0) == 0;
  }

  /** The state after `n` steps. */
  function StateAt(seed: bv32, n: nat): bv32 {
    if n == 0 then seed else NextState(StateAt(seed, n - 1))
  }

  /** Two keys that agree at one place of the stream agree from the start. */
  lemma {:induction false} StreamDeterminesSeed(a: bv32, b: bv32, n: nat)
    requires StateAt(a, n) == StateAt(b, n)
    ensures a == b
  {
    if n == 0 {
    } else {
      StepIsInvertible(StateAt(a, n - 1));
      StepIsInvertible(StateAt(b, n - 1));
      StreamDeterminesSeed(a, b, n - 1);
    }
  }

  lemma {:induction false} KeystreamNeverZero(seed: bv32, n: nat)
    requires seed != 0
    ensures StateAt(seed, n) != 0
  {
    if n == 0 {
    } else {
      KeystreamNeverZero(seed, n - 1);
      StepKeepsNonzero(StateAt(seed, n - 1));
    }
  }

  function LowByte(s: bv32): bv8 {
    (s & 0xFF) as bv8
  }

  // --- The key --------------------------------------------------------------------------------

  function Absorb(h: bv32, byte: bv8): bv32 { h ^ (byte as bv32) }
  function Times(h: bv32): bv32 { h * FNV_PRIME }

  /** FNV-1a. */
  function Fnv(key: Bytes): bv32 {
    if key == [] then FNV_OFFSET else Times(Absorb(Fnv(key[..|key| - 1]), key[|key| - 1]))
  }

  /** The seed an environment value stands for; without one, or with an empty one, a fixed one. */
  function Seed(env: Option<Bytes>): bv32 {
    if env.None? || env.value == [] then FALLBACK_SEED
    else if Fnv(env.value) == 0 then 1 else Fnv(env.value)
  }

  /** Whatever the key, no state of its keystream is ever zero. */
  lemma KeystreamAlive(env: Option<Bytes>, n: nat)
    ensures StateAt(Seed(env), n) != 0
  {
    KeystreamNeverZero(Seed(env), n);
  }

  method CfgKeySeed(env: Option<Bytes>) returns (seed: bv32, fromEnv: bool)
    ensures seed == Seed(env) && seed != 0
    ensures fromEnv <==> env.Some? && env.value != []
  {
    if env.Some? && env.value != [] {
      var h := FNV_OFFSET;
      for i := 0 to |env.value|
        invariant h == Fnv(env.value[..i])
      {
        assert env.value[..i + 1][..i] == env.value[..i];
        h := Absorb(h, env.value[i]);
        h := Times(h);
      }
      assert env.value[..|env.value|] == env.value;
      if h == 0 {
        h := 1;
      }
      return h, true;
    }
    return FALLBACK_SEED, false;
  }

  // --- The codec ------------------------------------------------------------------------------

  function Scrambled(seed: bv32, body: Bytes): Bytes {
    seq(|body|, i requires 0 <= i < |body| => body[i] ^ LowByte(StateAt(seed, i + 1)))
  }

  method CfgXor(env: Option<Bytes>, body: Bytes) returns (out: Bytes)
    ensures out == Scrambled(Seed(env), body)
    ensures |out| == |body|
    ensures forall i :: 0 <= i < |body| ==> (out[i] ^ body[i]) as bv32 == StateAt(Seed(env), i + 1) % 256
  {
    KeystreamIsLowByte(Seed(env), body);
    var s, _ := CfgKeySeed(env);
    out := [];
    for i := 0 to |body|
      invariant s == StateAt(Seed(env), i) && out == Scrambled(Seed(env), body)[..i]
    {
      s := Left13(s);
      s := Right17(s);
      s := Left5(s);
      out := out + [body[i] ^ LowByte(s)];
    }
  }

  lemma LowByteIsRemainder(s: bv32)
    ensures LowByte(s) as bv32 == s % 256
  {
  }

  lemma XorBack(x: bv8, k: bv8)
    ensures (x ^ k) ^ x == k
  {
  }

  /** What is combined with each byte is its state's remainder by 256. */
  lemma KeystreamIsLowByte(seed: bv32, body: Bytes)
    ensures var out := Scrambled(seed, body);
            forall i :: 0 <= i < |body| ==> (out[i] ^ body[i]) as bv32 == StateAt(seed, i + 1) % 256
  {
    forall i | 0 <= i < |body|
      ensures (Scrambled(seed, body)[i] ^ body[i]) as bv32 == StateAt(seed, i + 1) % 256
    {
      var k := LowByte(StateAt(seed, i + 1));
      XorBack(body[i], k);
      LowByteIsRemainder(StateAt(seed, i + 1));
      assert Scrambled(seed, body)[i] ^ body[i] == k;
    }
  }

  // --- Known values ---------------------------------------------------------------------------

  /** The first states of the generator from 1. */
  lemma KnownStates()
    ensures NextState(1) == 270369 && NextState(270369) == 67634689 && NextState(67634689) == 2647435461
  {
  }

  /** The published hashes of the empty key, "a" and "foobar". */
  lemma KnownHashes()
    ensures Fnv([]) == 0x811C9DC5 && Fnv([0x61]) == 0xE40C292C
    ensures Fnv([0x66, 0x6F, 0x6F, 0x62, 0x61, 0x72]) == 0xBF9CF968
  {
    var key: Bytes := [0x66, 0x6F, 0x6F, 0x62, 0x61, 0x72];
    var a: Bytes := [0x61];
    assert a[..0] == [] && Fnv(a) == Times(Absorb(FNV_OFFSET, 0x61));
    assert key[..5][..4] == key[..4] && key[..4][..3] == key[..3] && key[..3][..2] == key[..2];
    assert key[..2][..1] == key[..1] && key[..1][..0] == [] && key[..6] == key;
    assert Fnv(key[..1]) == Times(Absorb(FNV_OFFSET, 0x66));
    assert Fnv(key[..2]) == Times(Absorb(Fnv(key[..1]), 0x6F));
    assert Fnv(key[..3]) == Times(Absorb(Fnv(key[..2]), 0x6F));
    assert Fnv(key[..4]) == Times(Absorb(Fnv(key[..3]), 0x62));
    assert Fnv(key[..5]) == Times(Absorb(Fnv(key[..4]), 0x61));
  }

  /** The first bytes of the keystream without a key, and for the key "a". */
  lemma KnownKeystreams()
    ensures Scrambled(Seed(None), [0, 0, 0, 0]) == [0x1F, 0xF7, 0xD1, 0xF5]
    ensures Scrambled(Seed(Some([0x61])), [0, 0, 0, 0]) == [0xB8, 0x9E, 0x1B, 0xF5]
  {
    KnownHashes();
    FallbackStates();
    KeyedStates();
    FirstBytes(0x6F6D704D);
    FirstBytes(0xE40C292C);
  }

  lemma FallbackStates()
    ensures StateAt(0x6F6D704D, 1) == 0xEDF2AF1F && StateAt(0x6F6D704D, 2) == 0xBA3371F7
    ensures StateAt(0x6F6D704D, 3) == 0x55B285D1 && StateAt(0x6F6D704D, 4) == 0xA41C4DF5
  {
  }

  lemma KeyedStates()
    ensures StateAt(0xE40C292C, 1) == 0x441AAEB8 && StateAt(0xE40C292C, 2) == 0x28796D9E
    ensures StateAt(0xE40C292C, 3) == 0xBC9F401B && StateAt(0xE40C292C, 4) == 0xC71D40F5
  {
  }

  /** Zeros show the keystream itself. */
  lemma FirstBytes(seed: bv32)
    ensures var out := Scrambled(seed, [0, 0, 0, 0]);
            |out| == 4 && forall i :: 0 <= i < 4 ==> out[i] == LowByte(StateAt(seed, i + 1))
  {
    forall i | 0 <= i < 4 ensures Scrambled(seed, [0, 0, 0, 0])[i] == LowByte(StateAt(seed, i + 1)) {
      NothingXor(LowByte(StateAt(seed, i + 1)));
    }
  }

  lemma NothingXor(x: bv8)
    ensures 0 ^ x == x
  {
  }

  /** The header in letters. */
  lemma MagicSpells()
    ensures |MAGIC| == 8 && forall i :: 0 <= i < 8 ==> MAGIC[i] as char == "OMPMENC1"[i]
  {
  }

  predicate HasHeader(raw: Bytes) {
    |raw| >= |MAGIC| && raw[..|MAGIC|] == MAGIC
  }

  function Decoded(env: Option<Bytes>, raw: Bytes): Bytes {
    if HasHeader(raw) then Scrambled(Seed(env), raw[|MAGIC|..]) else raw
  }

  method CfgDecodeIfNeeded(env: Option<Bytes>, raw: Bytes) returns (text: Bytes)
    ensures text == Decoded(env, raw)
    ensures text == raw <==> !HasHeader(raw)
    ensures HasHeader(raw) ==>
              && |text| == |raw| - 8
              && forall i :: 0 <= i < |text| ==> (text[i] ^ raw[8 + i]) as bv32 == StateAt(Seed(env), i + 1) % 256
  {
    if HasHeader(raw) {
      text := CfgXor(env, raw[|MAGIC|..]);
    } else {
      text := raw;
    }
  }

  /** What the authoring native writes; it refuses what is already encoded. */
  method Obfuscate(env: Option<Bytes>, raw: Bytes) returns (file: Option<Bytes>)
    ensures file.None? <==> HasHeader(raw)
    ensures file.Some? ==> file.value == MAGIC + Scrambled(Seed(env), raw)
    ensures file.Some? ==> HasHeader(file.value) && Decoded(env, file.value) == raw
    ensures file.Some? ==>
              && |file.value| == 8 + |raw|
              && forall i :: 0 <= i < |raw| ==> (file.value[8 + i] ^ raw[i]) as bv32 == StateAt(Seed(env), i + 1) % 256
  {
    if HasHeader(raw) {
      return None;
    }
    var enc := CfgXor(env, raw);
    RoundTrip(env, raw);
    file := Some(MAGIC + enc);
  }

  lemma XorTwice(x: bv8, k: bv8)
    ensures x ^ k ^ k == x
  {
  }

  lemma ScrambleTwice(seed: bv32, body: Bytes)
    ensures Scrambled(seed, Scrambled(seed, body)) == body
  {
    forall i | 0 <= i < |body| ensures Scrambled(seed, Scrambled(seed, body))[i] == body[i] {
      XorTwice(body[i], LowByte(StateAt(seed, i + 1)));
    }
  }

  /** Decoding undoes encoding, for every text and key. */
  lemma RoundTrip(env: Option<Bytes>, raw: Bytes)
    ensures var file := MAGIC + Scrambled(Seed(env), raw); HasHeader(file) && Decoded(env, file) == raw
  {
    var file := MAGIC + Scrambled(Seed(env), raw);
    assert file[..|MAGIC|] == MAGIC && file[|MAGIC|..] == Scrambled(Seed(env), raw);
    ScrambleTwice(Seed(env), raw);
  }

  /** Different texts never share a file. */
  lemma EncodingIsInjective(env: Option<Bytes>, a: Bytes, b: Bytes)
    requires MAGIC + Scrambled(Seed(env), a) == MAGIC + Scrambled(Seed(env), b)
    ensures a == b
  {
    RoundTrip(env, a);
    RoundTrip(env, b);
  }
}
