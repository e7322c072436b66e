// Accounts, assets and balance ids as the texts that travel in requests and quotes.
module Names {
  import opened Prelude
  import opened Stellar

  /**
   * An account text: the strkey of some key, something no strkey decoder accepts, or a text with
   * colons in it, cut at the first.
   */
  datatype Address = Strkey(id: AccountId) | BadText(text: string) | Joined(head: Address, rest: string)

  function ToAccountId(a: Address): Option<AccountId> {
    match a
    case Strkey(id) => Some(id)
    case _ => None
  }

  /** An asset text, cut at its first colon. */
  datatype AssetText =
    | NativeText
    | CodeIssuer(code: string, issuer: Address)
    | NoColon(text: string)

  // ---------- The service ----------

  /** Rust's `Asset`: the issuer is still a text. */
  datatype NamedAsset = NamedNative | NamedCredit(code: string, issuer: Address)

  predicate StartsWithG(a: Address) {
    match a
    case Strkey(_) => true
    case BadText(t) => t != "" && t[0] == 'G'
    case Joined(head, _) => StartsWithG(head)
  }

  /**
   * `Asset::parse`. What follows the first colon is the issuer, further colons included, so with a
   * second colon it is no strkey.
   */
  function ParseAsset(s: AssetText): Option<NamedAsset> {
    match s
    case NativeText => Some(NamedNative)
    case CodeIssuer(code, issuer) =>
      if code == "" || |code| > 12 || !StartsWithG(issuer) then None else Some(NamedCredit(code, issuer))
    case NoColon(_) => None
  }

  /** `to_xdr_asset`. */
  function ToXdrAsset(a: NamedAsset): Option<Asset> {
    match a
    case NamedNative => Some(Native)
    case NamedCredit(code, issuer) =>
      var id :- ToAccountId(issuer);
      if |code| <= 12 then Some(Credit(code, id)) else None
  }

  function ReadAsset(s: AssetText): Option<Asset> {
    var a :- ParseAsset(s);
    ToXdrAsset(a)
  }

  /** `Asset::canonical` of an asset on the chain. */
  function Canonical(a: Asset): AssetText {
    match a
    case Native => NativeText
    case Credit(code, issuer) => CodeIssuer(code, Strkey(issuer))
  }

  // ---------- The SDK ----------

  predicate IsAlphanumeric(c: char) { '0' <= c <= '9' || 'a' <= c <= 'z' || 'A' <= c <= 'Z' }

  /** A code `new Asset(code, issuer)` accepts; decoding a transaction applies the same rule. */
  predicate SdkCode(code: string) {
    1 <= |code| <= 12 && forall i :: 0 <= i < |code| ==> IsAlphanumeric(code[i])
  }

  predicate SdkAsset(a: Asset) { a.Credit? ==> SdkCode(a.code) }

  /** `assetOf`: `split(":")` keeps the first two pieces and ignores the rest. */
  function AssetOf(s: AssetText): Option<Asset> {
    match s
    case NativeText => Some(Native)
    case CodeIssuer(code, issuer) => NewAsset(code, issuer)
    case NoColon(_) => None
  }

  function NewAsset(code: string, issuer: Address): Option<Asset> {
    var id :- ToAccountId(FirstPiece(issuer));
    if SdkCode(code) then Some(Credit(code, id)) else None
  }

  function FirstPiece(a: Address): Address {
    match a
    case Joined(head, _) => head
    case _ => a
  }

  /** What the service reads as an asset of the ledger: exactly its canonical text, with a code that fits. */
  lemma ReadsExactlyCanonical(s: AssetText, a: Asset)
    ensures ReadAsset(s) == Some(a) <==> s == Canonical(a) && (a.Credit? ==> 1 <= |a.code| <= 12)
  {
  }

  /** By their places in ASCII: digits, capitals, small letters. */
  predicate LettersAndDigits(code: string) {
    forall i :: 0 <= i < |code| ==>
      var c := code[i] as int; 48 <= c <= 57 || 65 <= c <= 90 || 97 <= c <= 122
  }

  /**
   * What the SDK reads as an asset: lumens, or one to twelve letters and digits before a colon and a key's
   * strkey up to the next one.
   */
  lemma SdkReadsExactly(s: AssetText, a: Asset)
    ensures AssetOf(s) == Some(a) <==>
      || (s.NativeText? && a.Native?)
      || (&& s.CodeIssuer? && a.Credit? && s.code == a.code && 1 <= |s.code| <= 12 && LettersAndDigits(s.code)
          && (s.issuer == Strkey(a.issuer) || (s.issuer.Joined? && s.issuer.head == Strkey(a.issuer))))
  {
    if s.CodeIssuer? { assert SdkCode(s.code) <==> 1 <= |s.code| <= 12 && LettersAndDigits(s.code); }
  }

  /**
   * With a second colon a text is an asset to the planner, no asset to the builder, and its first two
   * pieces to the SDK.
   */
  lemma SecondColon(code: string, id: AccountId, rest: string)
    requires 1 <= |code| <= 12 && LettersAndDigits(code)
    ensures var s := CodeIssuer(code, Joined(Strkey(id), rest));
      && ParseAsset(s) == Some(NamedCredit(code, Joined(Strkey(id), rest))) && ReadAsset(s) == None
      && AssetOf(s) == Some(Credit(code, id))
  {
    SdkReadsExactly(CodeIssuer(code, Joined(Strkey(id), rest)), Credit(code, id));
    assert StartsWithG(Strkey(id));
  }

  lemma AssetReadersAgree(s: AssetText)
    requires ReadAsset(s).Some? && AssetOf(s).Some?
    ensures ReadAsset(s) == AssetOf(s)
  {
  }

  /** The service reads some text the SDK does not, exactly when the code is not alphanumeric. */
  lemma ReadableByBoth(s: AssetText)
    requires ReadAsset(s).Some?
    ensures AssetOf(s).Some? <==> SdkAsset(ReadAsset(s).value)
  {
  }

  // ---------- Claimable balance ids ----------

  function HexValue(c: char): (v: Option<byte>)
    ensures v.Some? ==> v.value < 16
  {
    if '0' <= c <= '9' then Some((c as int - '0' as int) as byte)
    else if 'a' <= c <= 'f' then Some((c as int - 'a' as int + 10) as byte)
    else if 'A' <= c <= 'F' then Some((c as int - 'A' as int + 10) as byte)
    else None
  }

  function HexChar(n: byte): char
    requires n < 16
  {
    if n < 10 then '0' + n as char else 'a' + (n - 10) as char
  }

  /** `hex::decode`: both letter cases, whole bytes only. */
  function DecodeHex(s: string): Option<seq<byte>> {
    if s == "" then Some([])
    else if |s| == 1 then None
    else
      var high :- HexValue(s[0]);
      var low :- HexValue(s[1]);
      var rest :- DecodeHex(s[2..]);
      Some([high * 16 + low] + rest)
  }

  /** Lower-case hexadecimal, as Horizon and the SDK print it. */
  function EncodeHex(bytes: seq<byte>): (s: string)
    ensures |s| == 2 * |bytes|
  {
    if bytes == [] then "" else [HexChar(bytes[0] / 16), HexChar(bytes[0] % 16)] + EncodeHex(bytes[1..])
  }

  function LowerChar(c: char): char { if 'A' <= c <= 'Z' then c - 'A' + 'a' else c }

  function ToLower(s: string): (r: string)
    ensures |r| == |s|
  {
    seq(|s|, i requires 0 <= i < |s| => LowerChar(s[i]))
  }

  const TYPE_ZERO: seq<byte> := [0, 0, 0, 0]

  /** 72 hex characters: a four-byte type, which must be zero, and a 32-byte hash. */
  function ParseBalanceId(id: string): Option<BalanceId> {
    var bytes :- DecodeHex(id);
    if |bytes| != 36 || bytes[..4] != TYPE_ZERO then None else Some(BalanceId(bytes[4..]))
  }

  predicate IsHex(c: char) { '0' <= c <= '9' || 'a' <= c <= 'f' || 'A' <= c <= 'F' }

  /** A claimable balance id as Horizon writes it: 72 hexadecimal digits, of which the first eight are zeros. */
  predicate IsBalanceId(id: string) {
    |id| == 72 && (forall i :: 0 <= i < 72 ==> IsHex(id[i])) && forall i :: 0 <= i < 8 ==> id[i] == '0'
  }

  lemma {:induction false} DecodesHex(s: string)
    ensures DecodeHex(s).Some? <==> |s| % 2 == 0 && forall i :: 0 <= i < |s| ==> IsHex(s[i])
    ensures DecodeHex(s).Some? ==> |DecodeHex(s).value| == |s| / 2
    ensures DecodeHex(s).Some? ==> forall i :: 0 <= i < |s| / 2 ==>
              (DecodeHex(s).value[i] == 0 <==> s[2 * i] == '0' && s[2 * i + 1] == '0')
  {
    if |s| <= 1 {
    } else {
      DecodesHex(s[2..]);
      assert forall i :: 0 <= i < |s| - 2 ==> s[2..][i] == s[i + 2];
      if DecodeHex(s).Some? {
        var high, low := HexValue(s[0]).value, HexValue(s[1]).value;
        var rest := DecodeHex(s[2..]).value;
        assert DecodeHex(s).value == [high * 16 + low] + rest;
        HexPair(high, low);
      }
      if forall i :: 0 <= i < |s| ==> IsHex(s[i]) {
        assert IsHex(s[0]) && IsHex(s[1]);
      }
    }
  }

  lemma BalanceIdsExactly(id: string)
    ensures ParseBalanceId(id).Some? <==> IsBalanceId(id)
  {
    hide IsHex;
    DecodesHex(id);
    if DecodeHex(id).Some? && |id| == 72 {
      var bytes := DecodeHex(id).value;
      if bytes[..4] == TYPE_ZERO {
        assert bytes[0] == 0 && bytes[1] == 0 && bytes[2] == 0 && bytes[3] == 0 by {
          assert bytes[0] == bytes[..4][0] && bytes[1] == bytes[..4][1];
          assert bytes[2] == bytes[..4][2] && bytes[3] == bytes[..4][3];
        }
        forall i | 0 <= i < 8 ensures id[i] == '0' {
          assert id[2 * (i / 2)] == '0' && id[2 * (i / 2) + 1] == '0';
        }
      }
      if forall i :: 0 <= i < 8 ==> id[i] == '0' {
        forall i | 0 <= i < 4 ensures bytes[i] == 0 { assert id[2 * i] == '0' && id[2 * i + 1] == '0'; }
        assert bytes[..4] == TYPE_ZERO;
      }
    }
  }

  function RenderBalanceId(id: BalanceId): string { EncodeHex(TYPE_ZERO + id.hash) }

  lemma HexPair(high: byte, low: byte)
    requires high < 16 && low < 16
    ensures (high * 16 + low) / 16 == high && (high * 16 + low) % 16 == low
  {
  }

  lemma HexLower(c: char)
    requires HexValue(c).Some?
    ensures HexChar(HexValue(c).value) == LowerChar(c)
  {
  }

  lemma {:induction false} EncodeDecoded(s: string)
    requires DecodeHex(s).Some?
    ensures EncodeHex(DecodeHex(s).value) == ToLower(s)
  {
    if s == "" {
    } else {
      EncodeDecoded(s[2..]);
      var high, low := HexValue(s[0]).value, HexValue(s[1]).value;
      var bytes := DecodeHex(s).value;
      HexPair(high, low);
      HexLower(s[0]);
      HexLower(s[1]);
      hide HexValue, HexChar, LowerChar;
      assert bytes == [high * 16 + low] + DecodeHex(s[2..]).value;
      assert bytes[1..] == DecodeHex(s[2..]).value;
      assert ToLower(s) == [LowerChar(s[0]), LowerChar(s[1])] + ToLower(s[2..]);
    }
  }

  lemma {:induction false} DecodeEncoded(bytes: seq<byte>)
    ensures DecodeHex(EncodeHex(bytes)) == Some(bytes)
  {
    if bytes == [] {
    } else {
      DecodeEncoded(bytes[1..]);
      assert EncodeHex(bytes)[2..] == EncodeHex(bytes[1..]);
      assert bytes == [bytes[0]] + bytes[1..];
    }
  }

  /** Rendering a parsed id gives the id back in lower case, so case is all that is lost. */
  lemma RenderParsed(id: string)
    requires ParseBalanceId(id).Some?
    ensures RenderBalanceId(ParseBalanceId(id).value) == ToLower(id)
  {
    var bytes := DecodeHex(id).value;
    EncodeDecoded(id);
    assert TYPE_ZERO + bytes[4..] == bytes;
  }

  lemma ParseRendered(id: BalanceId)
    requires |id.hash| == 32
    ensures ParseBalanceId(RenderBalanceId(id)) == Some(id)
  {
    DecodeEncoded(TYPE_ZERO + id.hash);
    assert (TYPE_ZERO + id.hash)[4..] == id.hash;
  }

  /** Two texts name the same balance exactly when they differ in letter case only. */
  lemma SameBalanceId(a: string, b: string)
    requires ParseBalanceId(a).Some? && ParseBalanceId(b).Some?
    ensures ParseBalanceId(a) == ParseBalanceId(b) <==> ToLower(a) == ToLower(b)
  {
    RenderParsed(a);
    RenderParsed(b);
    var x, y := ParseBalanceId(a).value, ParseBalanceId(b).value;
    ParseRendered(x);
    ParseRendered(y);
  }
}
