/** The PHC string of internal/password/password.go: printer, parser and verification, with the key
    derivation left uninterpreted. */
module Passwords {
  import opened Prelude
  import opened Numerals
  import opened Base64

  const ARGON2_VERSION: nat := 19
  const UINT32_BOUND: nat := 0x1_0000_0000
  const UINT8_BOUND: nat := 0x100

  datatype Params = Params(memory: nat, time: nat, parallelism: nat, keyLen: nat)

  /** The fields fit the Go types: uint32, uint32, uint8 and uint32. */
  predicate Fits(p: Params) {
    p.memory < UINT32_BOUND && p.time < UINT32_BOUND && p.parallelism < UINT8_BOUND && p.keyLen < UINT32_BOUND
  }

  /** Password, salt, time, memory, parallelism and key length to a key. */
  type Kdf = (string, seq<Byte>, nat, nat, nat, nat) -> seq<Byte>

  ghost predicate GivesKeys(kdf: Kdf) {
    forall plain, salt, t, m, l, n :: |kdf(plain, salt, t, m, l, n)| == n
  }

  function ParamText(memory: nat, time: nat, parallelism: nat): string {
    "m=" + (Print(memory) + (",t=" + (Print(time) + (",p=" + Print(parallelism)))))
  }

  function Encoded(memory: nat, time: nat, parallelism: nat, salt: seq<Byte>, key: seq<Byte>): string {
    "" + "$" + ("argon2id" + "$" + (("v=" + Print(ARGON2_VERSION)) + "$" +
      (ParamText(memory, time, parallelism) + "$" + (Encode(salt) + "$" + Encode(key)))))
  }

  function HashWithParams(plain: string, p: Params, salt: seq<Byte>, kdf: Kdf): string {
    Encoded(p.memory, p.time, p.parallelism, salt, kdf(plain, salt, p.time, p.memory, p.parallelism, p.keyLen))
  }

  /** How a hash with the default parameters begins. */
  lemma DefaultText(salt: seq<Byte>, key: seq<Byte>)
    ensures Encoded(65536, 3, 2, salt, key) == "$argon2id$v=19$m=65536,t=3,p=2$" + Encode(salt) + "$" + Encode(key)
  {
    hide Print, Encode;
    PrintedNumbers();
    ParamText65536();
    var last := Encode(salt) + "$" + Encode(key);
    assert Encoded(65536, 3, 2, salt, key) == "$argon2id$v=19$m=65536,t=3,p=2$" + last by {
      assert "" + "$" + ("argon2id" + "$" + (("v=" + "19") + "$" + ("m=65536,t=3,p=2" + "$" + last))) ==
             "$argon2id$v=19$m=65536,t=3,p=2$" + last;
    }
    assert "$argon2id$v=19$m=65536,t=3,p=2$" + last == "$argon2id$v=19$m=65536,t=3,p=2$" + Encode(salt) + "$" + Encode(key);
  }

  lemma PrintedNumbers()
    ensures Print(19) == "19" && Print(3) == "3" && Print(2) == "2" && Print(65536) == "65536"
  {
    assert Print(65536) == Print(6553) + "6" && Print(6553) == Print(655) + "3" && Print(655) == Print(65) + "5" && Print(65) == Print(6) + "5";
  }

  lemma ParamText65536()
    ensures ParamText(65536, 3, 2) == "m=65536,t=3,p=2"
  {
    PrintedNumbers();
  }

  // --- Parsing ---------------------------------------------------------------------------------------

  /** strings.Split. */
  function Split(s: string, sep: char): (parts: seq<string>)
    ensures parts != []
  {
    if s == "" then [""]
    else if s[0] == sep then [""] + Split(s[1..], sep)
    else
      var parts := Split(s[1..], sep);
      [[s[0]] + parts[0]] + parts[1..]
  }

  /** Sscanf "v=%d"; what follows the number is ignored. */
  function ParseVersion(s: string): Option<int> {
    match ScanLiteral(s, "v=")
    case None => None
    case Some(r) => if ScanInt(r).None? then None else Some(ScanInt(r).value.0)
  }

  /** A literal and the unsigned number after it. */
  function ParseField(s: string, literal: string, bound: nat): Option<(nat, string)> {
    match ScanLiteral(s, literal)
    case None => None
    case Some(r) => ScanUint(r, bound)
  }

  /** Sscanf "m=%d,t=%d,p=%d". */
  function ParseParams(s: string): Option<(nat, nat, nat)> {
    match ParseField(s, "m=", UINT32_BOUND)
    case None => None
    case Some((m, r)) =>
      match ParseField(r, ",t=", UINT32_BOUND)
      case None => None
      case Some((t, r')) =>
        match ParseField(r', ",p=", UINT8_BOUND)
        case None => None
        case Some((p, _)) => Some((m, t, p))
  }

  datatype Parsed = Parsed(memory: nat, time: nat, parallelism: nat, salt: seq<Byte>, key: seq<Byte>)

  function Parse(encoded: string): Option<Parsed> {
    var parts := Split(encoded, '$');
    if |parts| != 6 || parts[0] != "" || parts[1] != "argon2id" then None
    else if ParseVersion(parts[2]) != Some(ARGON2_VERSION) then None
    else
      match ParseParams(parts[3])
      case None => None
      case Some((m, t, p)) =>
        match Decode(parts[4])
        case None => None
        case Some(salt) =>
          match Decode(parts[5])
          case None => None
          case Some(key) => Some(Parsed(m, t, p, salt, key))
  }

  datatype Verdict = InvalidHash | Match | Mismatch

  /** The key is derived with the parameters and the key length of the stored hash. */
  function Verify(encoded: string, plain: string, kdf: Kdf): Verdict {
    match Parse(encoded)
    case None => InvalidHash
    case Some(h) =>
      if kdf(plain, h.salt, h.time, h.memory, h.parallelism, |h.key| % UINT32_BOUND) == h.key then Match else Mismatch
  }

  // --- The parser undoes the printer ------------------------------------------------------------------

  lemma {:induction false} SplitAt(a: string, rest: string, sep: char)
    requires sep !in a
    ensures Split(a + [sep] + rest, sep) == [a] + Split(rest, sep)
  {
    if a == "" {
      assert a + [sep] + rest == [sep] + rest;
      assert ([sep] + rest)[1..] == rest;
    } else {
      SplitAt(a[1..], rest, sep);
      assert (a + [sep] + rest)[1..] == a[1..] + [sep] + rest;
      assert [a[0]] + a[1..] == a;
    }
  }

  lemma {:induction false} SplitLast(a: string, sep: char)
    requires sep !in a
    ensures Split(a, sep) == [a]
  {
    if a == "" {
    } else {
      SplitLast(a[1..], sep);
      assert [a[0]] + a[1..] == a;
    }
  }

  lemma FieldParses(literal: string, n: nat, rest: string, bound: nat)
    requires n < bound && StartsWithoutDigit(rest)
    ensures ParseField(literal + (Print(n) + rest), literal, bound) == Some((n, rest))
  {
    assert (literal + (Print(n) + rest))[|literal|..] == Print(n) + rest;
    ScanPrinted(n, rest, bound);
  }

  lemma ParamsParse(memory: nat, time: nat, parallelism: nat)
    requires memory < UINT32_BOUND && time < UINT32_BOUND && parallelism < UINT8_BOUND
    ensures ParseParams(ParamText(memory, time, parallelism)) == Some((memory, time, parallelism))
  {
    var p := ",p=" + Print(parallelism);
    var t := ",t=" + (Print(time) + p);
    FieldParses("m=", memory, t, UINT32_BOUND);
    FieldParses(",t=", time, p, UINT32_BOUND);
    FieldParses(",p=", parallelism, "", UINT8_BOUND);
    assert Print(parallelism) + "" == Print(parallelism);
  }

  lemma VersionReads(v: nat)
    requires v < UINT32_BOUND
    ensures ParseVersion("v=" + Print(v)) == Some(v)
  {
    ScanPrinted(v, "", UINT32_BOUND);
    assert Print(v) + "" == Print(v);
    assert ("v=" + Print(v))[2..] == Print(v);
  }

  lemma NumbersArePlain(n: nat)
    ensures '$' !in Print(n)
  {
    PrintValue(n);
  }

  lemma ParamsArePlain(memory: nat, time: nat, parallelism: nat)
    ensures '$' !in ParamText(memory, time, parallelism)
  {
    NumbersArePlain(memory);
    NumbersArePlain(time);
    NumbersArePlain(parallelism);
  }

  lemma PartsOf(memory: nat, time: nat, parallelism: nat, salt: seq<Byte>, key: seq<Byte>)
    ensures Split(Encoded(memory, time, parallelism, salt, key), '$') ==
            ["", "argon2id", "v=" + Print(ARGON2_VERSION), ParamText(memory, time, parallelism), Encode(salt), Encode(key)]
  {
    hide Split, ParamText, Print, Encode;
    NumbersArePlain(ARGON2_VERSION);
    ParamsArePlain(memory, time, parallelism);
    EncodingIsPlain(salt);
    EncodingIsPlain(key);
    var last := Encode(salt) + "$" + Encode(key);
    var params := ParamText(memory, time, parallelism) + "$" + last;
    var version := ("v=" + Print(ARGON2_VERSION)) + "$" + params;
    var name := "argon2id" + "$" + version;
    SplitAt("", name, '$');
    SplitAt("argon2id", version, '$');
    SplitAt("v=" + Print(ARGON2_VERSION), params, '$');
    SplitAt(ParamText(memory, time, parallelism), last, '$');
    SplitAt(Encode(salt), Encode(key), '$');
    SplitLast(Encode(key), '$');
  }

  /** Parsing what was printed recovers the parameters, the salt and the key. */
  lemma ParseEncoded(memory: nat, time: nat, parallelism: nat, salt: seq<Byte>, key: seq<Byte>)
    requires memory < UINT32_BOUND && time < UINT32_BOUND && parallelism < UINT8_BOUND
    ensures Parse(Encoded(memory, time, parallelism, salt, key)) == Some(Parsed(memory, time, parallelism, salt, key))
  {
    hide Encoded, Split, ParamText, ParseParams, ParseVersion, Print, Encode, Decode;
    PartsOf(memory, time, parallelism, salt, key);
    VersionReads(ARGON2_VERSION);
    ParamsParse(memory, time, parallelism);
    RoundTrip(salt);
    RoundTrip(key);
  }

  /** A hash of another algorithm, or of another version of this one, is not a valid one, whatever follows. */
  lemma OthersAreInvalid(name: string, v: nat, rest: string, plain: string, kdf: Kdf)
    requires '$' !in name && v < UINT32_BOUND
    ensures name != "argon2id" ==> Verify("$" + name + "$" + rest, plain, kdf) == InvalidHash
    ensures v != 19 ==> Verify("$argon2id$v=" + Print(v) + "$" + rest, plain, kdf) == InvalidHash
  {
    hide Split, Print, Decode, ParseParams;
    OtherName(name, rest);
    OtherVersion(v, rest);
  }

  lemma OtherName(name: string, rest: string)
    requires '$' !in name
    ensures name != "argon2id" ==> Parse("$" + name + "$" + rest) == None
  {
    hide Split, ParseVersion, ParseParams, Decode;
    SplitAt("", name + "$" + rest, '$');
    SplitAt(name, rest, '$');
    assert "" + "$" + (name + "$" + rest) == "$" + name + "$" + rest;
  }

  lemma OtherVersion(v: nat, rest: string)
    requires v < UINT32_BOUND
    ensures v != 19 ==> Parse("$argon2id$v=" + Print(v) + "$" + rest) == None
  {
    hide Split, ParseParams, Decode, Print;
    NumbersArePlain(v);
    var version := "v=" + Print(v);
    SplitAt("", "argon2id" + "$" + (version + "$" + rest), '$');
    SplitAt("argon2id", version + "$" + rest, '$');
    SplitAt(version, rest, '$');
    VersionReads(v);
    assert "" + "$" + ("argon2id" + "$" + (version + "$" + rest)) == "$argon2id$v=" + Print(v) + "$" + rest;
  }

  /** A password matches its own hash, and another matches exactly when it derives the same key. */
  lemma HashRoundTrip(plain: string, guess: string, p: Params, salt: seq<Byte>, kdf: Kdf)
    requires Fits(p) && GivesKeys(kdf)
    ensures Verify(HashWithParams(plain, p, salt, kdf), plain, kdf) == Match
    ensures Verify(HashWithParams(plain, p, salt, kdf), guess, kdf) ==
            if kdf(guess, salt, p.time, p.memory, p.parallelism, p.keyLen) ==
               kdf(plain, salt, p.time, p.memory, p.parallelism, p.keyLen)
            then Match else Mismatch
  {
    hide Parse, Encoded;
    ParseEncoded(p.memory, p.time, p.parallelism, salt, kdf(plain, salt, p.time, p.memory, p.parallelism, p.keyLen));
  }

  /** Two hashes are the same text only if parameters, salt and key are the same. */
  lemma EncodedInjective(h: Parsed, h': Parsed)
    requires h.memory < UINT32_BOUND && h.time < UINT32_BOUND && h.parallelism < UINT8_BOUND
    requires h'.memory < UINT32_BOUND && h'.time < UINT32_BOUND && h'.parallelism < UINT8_BOUND
    requires Encoded(h.memory, h.time, h.parallelism, h.salt, h.key) ==
             Encoded(h'.memory, h'.time, h'.parallelism, h'.salt, h'.key)
    ensures h == h'
  {
    hide Parse, Encoded;
    ParseEncoded(h.memory, h.time, h.parallelism, h.salt, h.key);
    ParseEncoded(h'.memory, h'.time, h'.parallelism, h'.salt, h'.key);
  }
}
