/** Request validation and the loops around metadata (internal/payments/validation.go). */
module Validation {
  import opened Basics
  import opened Text
  import opened Tables

  const MAX_KEY_LEN := 64
  const MAX_ORDER_ID_LEN := 128
  const MAX_DESCRIPTION_LEN := 128
  const MAX_METADATA_KEYS := 20
  const MAX_METADATA_KEY_LEN := 40
  const MAX_METADATA_VAL_LEN := 64

  /** How many bytes a character takes in UTF-8 (section 3 of RFC 3629). */
  function Utf8Len(c: char): (n: nat)
    ensures 1 <= n <= 4
  {
    var x := c as int;
    if x < 0x80 then 1 else if x < 0x800 then 2 else if x < 0x10000 then 3 else 4
  }

  /** len of a Go string: bytes, not characters. */
  function Len(s: string): (n: nat)
    ensures |s| <= n <= 4 * |s|
  {
    if s == "" then 0 else Utf8Len(s[0]) + Len(s[1..])
  }

  /** The byte counts change at these characters and nowhere else; ASCII texts are as long as they look. */
  lemma ByteCounts(c: char)
    ensures Utf8Len(c) == 1 <==> c as int <= 127
    ensures Utf8Len(c) == 2 <==> 128 <= c as int <= 2047
    ensures Utf8Len(c) == 3 <==> 2048 <= c as int <= 65535
    ensures Utf8Len(c) == 4 <==> c as int >= 65536
  {
  }

  predicate Ascii(s: string) {
    forall i :: 0 <= i < |s| ==> s[i] as int <= 127
  }

  lemma {:induction false} AsciiLen(s: string)
    ensures Len(s) == |s| <==> Ascii(s)
  {
    if s != "" {
      AsciiLen(s[1..]);
      ByteCounts(s[0]);
      hide Utf8Len;
      assert Ascii(s) <==> s[0] as int <= 127 && Ascii(s[1..]) by { AsciiSplit(s); }
    }
  }

  lemma AsciiSplit(s: string)
    requires s != ""
    ensures Ascii(s) <==> s[0] as int <= 127 && Ascii(s[1..])
  {
    assert s == [s[0]] + s[1..];
  }

  datatype Rule = KeyPresent | KeyShort | OrderIdOk | AmountPositive | OnlyRubles | DescriptionShort | FewMetadata
                | MetadataKeyOk | MetadataValueOk | ReturnUrlOk {
    /** The order of the checks. The two metadata rules are checked together, entry by entry in no fixed order. */
    function Turn(): nat {
      match this
      case KeyPresent => 0
      case KeyShort => 1
      case OrderIdOk => 2
      case AmountPositive => 3
      case OnlyRubles => 4
      case DescriptionShort => 5
      case FewMetadata => 6
      case MetadataKeyOk => 7
      case MetadataValueOk => 7
      case ReturnUrlOk => 8
    }
  }

  datatype Fields = Fields(orderId: string, amount: int, currency: string, description: string,
                           returnUrl: Option<string>, metadata: Option<map<string, string>>)

  function Entries(metadata: Option<map<string, string>>): map<string, string> {
    if metadata.Some? then metadata.value else map[]
  }

  predicate KeyFits(name: string) {
    name != "" && Len(name) <= MAX_METADATA_KEY_LEN
  }

  /** What each rule asks of the request as it arrived. */
  predicate Holds(rule: Rule, v: Fields, key: string, urlOk: string -> bool) {
    match rule
    case KeyPresent => TrimSpace(key) != ""
    case KeyShort => Len(TrimSpace(key)) <= MAX_KEY_LEN
    case OrderIdOk => TrimSpace(v.orderId) != "" && Len(TrimSpace(v.orderId)) <= MAX_ORDER_ID_LEN
    case AmountPositive => v.amount > 0
    case OnlyRubles => v.currency == "" || v.currency == "RUB"
    case DescriptionShort => Len(TrimSpace(v.description)) <= MAX_DESCRIPTION_LEN
    case FewMetadata => |Entries(v.metadata)| <= MAX_METADATA_KEYS
    case MetadataKeyOk => forall k :: k in Entries(v.metadata) ==> KeyFits(k)
    case MetadataValueOk => forall k :: k in Entries(v.metadata) ==> Len(Entries(v.metadata)[k]) <= MAX_METADATA_VAL_LEN
    case ReturnUrlOk => v.returnUrl.Some? && TrimSpace(v.returnUrl.value) != "" ==> urlOk(TrimSpace(v.returnUrl.value))
  }

  ghost predicate Acceptable(v: Fields, key: string, urlOk: string -> bool) {
    forall rule: Rule :: Holds(rule, v, key, urlOk)
  }

  function ReturnUrlOr(url: Option<string>, fallback: Option<string>): Option<string> {
    if url.None? || TrimSpace(url.value) == "" then fallback else Some(TrimSpace(url.value))
  }

  /** The request after the checks up to a turn: each check normalizes its own field just before it judges it. */
  function NormalizedUpTo(v: Fields, fallback: Option<string>, turn: nat): Fields {
    Fields(if turn >= 2 then TrimSpace(v.orderId) else v.orderId,
           v.amount,
           if turn >= 4 && v.currency == "" then "RUB" else v.currency,
           if turn >= 5 then TrimSpace(v.description) else v.description,
           if turn >= 9 then ReturnUrlOr(v.returnUrl, fallback) else v.returnUrl,
           v.metadata)
  }

  function Normalized(v: Fields, fallback: Option<string>): Fields {
    NormalizedUpTo(v, fallback, 9)
  }

  /** A broken rule, with every rule of an earlier turn kept. */
  ghost predicate FirstBroken(rule: Rule, v: Fields, key: string, urlOk: string -> bool) {
    !Holds(rule, v, key, urlOk) && KeptBefore(rule.Turn(), v, key, urlOk)
  }

  ghost predicate KeptBefore(turn: nat, v: Fields, key: string, urlOk: string -> bool) {
    forall earlier: Rule :: earlier.Turn() < turn ==> Holds(earlier, v, key, urlOk)
  }

  lemma Unbroken(v: Fields, key: string, urlOk: string -> bool)
    ensures KeptBefore(0, v, key, urlOk)
  {
  }

  lemma Pass(rule: Rule, v: Fields, key: string, urlOk: string -> bool)
    requires KeptBefore(rule.Turn(), v, key, urlOk)
    requires forall same: Rule :: same.Turn() == rule.Turn() ==> Holds(same, v, key, urlOk)
    ensures KeptBefore(rule.Turn() + 1, v, key, urlOk)
    ensures rule.ReturnUrlOk? ==> Acceptable(v, key, urlOk)
  {
    hide Holds;
  }

  /** The order of the checks: whoever is told of a broken rule has kept the ones before it. */
  lemma EarlierHold(rule: Rule, v: Fields, key: string, urlOk: string -> bool)
    requires FirstBroken(rule, v, key, urlOk)
    ensures !rule.KeyPresent? ==> TrimSpace(key) != ""
    ensures !rule.KeyPresent? && !rule.KeyShort? ==> Len(TrimSpace(key)) <= 64
    ensures v.amount <= 0 ==> rule.KeyPresent? || rule.KeyShort? || rule.OrderIdOk? || rule.AmountPositive?
    ensures rule.AmountPositive? ==> TrimSpace(v.orderId) != ""
    ensures rule.DescriptionShort? ==> v.currency == "" || v.currency == "RUB"
    ensures rule.FewMetadata? || rule.MetadataKeyOk? || rule.MetadataValueOk? || rule.ReturnUrlOk? ==>
              Len(TrimSpace(v.description)) <= 128
    ensures rule.MetadataKeyOk? || rule.MetadataValueOk? || rule.ReturnUrlOk? ==> |Entries(v.metadata)| <= 20
    ensures rule.ReturnUrlOk? ==> forall k :: k in Entries(v.metadata) ==> k != "" && Len(k) <= 40 && Len(Entries(v.metadata)[k]) <= 64
  {
    hide TrimSpace, Len, Holds;
    assert Holds(KeyPresent, v, key, urlOk) || rule.Turn() == 0;
    assert Holds(KeyShort, v, key, urlOk) || rule.Turn() <= 1;
    assert Holds(OrderIdOk, v, key, urlOk) || rule.Turn() <= 2;
    assert Holds(AmountPositive, v, key, urlOk) || rule.Turn() <= 3;
    assert Holds(OnlyRubles, v, key, urlOk) || rule.Turn() <= 4;
    assert Holds(DescriptionShort, v, key, urlOk) || rule.Turn() <= 5;
    assert Holds(FewMetadata, v, key, urlOk) || rule.Turn() <= 6;
    assert rule.Turn() > 7 ==> Holds(MetadataKeyOk, v, key, urlOk) && Holds(MetadataValueOk, v, key, urlOk);
    hide FirstBroken;
    RulesSay(v, key, urlOk);
  }

  lemma RulesSay(v: Fields, key: string, urlOk: string -> bool)
    ensures Holds(KeyPresent, v, key, urlOk) ==> TrimSpace(key) != ""
    ensures Holds(KeyShort, v, key, urlOk) ==> Len(TrimSpace(key)) <= 64
    ensures Holds(OrderIdOk, v, key, urlOk) ==> TrimSpace(v.orderId) != ""
    ensures Holds(AmountPositive, v, key, urlOk) <==> v.amount > 0
    ensures Holds(OnlyRubles, v, key, urlOk) ==> v.currency == "" || v.currency == "RUB"
    ensures Holds(DescriptionShort, v, key, urlOk) ==> Len(TrimSpace(v.description)) <= 128
    ensures Holds(FewMetadata, v, key, urlOk) ==> |Entries(v.metadata)| <= 20
    ensures Holds(MetadataKeyOk, v, key, urlOk) && Holds(MetadataValueOk, v, key, urlOk) ==>
              forall k :: k in Entries(v.metadata) ==> k != "" && Len(k) <= 40 && Len(Entries(v.metadata)[k]) <= 64
  {
    hide TrimSpace, Len;
  }

  class CreatePaymentInput {
    var orderId: string
    var amount: int
    var currency: string
    var description: string
    var returnUrl: Option<string>
    var metadata: Option<map<string, string>>

    function Value(): Fields
      reads this
    {
      Fields(orderId, amount, currency, description, returnUrl, metadata)
    }

    constructor (v: Fields)
      ensures Value() == v
    {
      orderId, amount, currency, description, returnUrl, metadata :=
        v.orderId, v.amount, v.currency, v.description, v.returnUrl, v.metadata;
    }

    /**
     * Normalizes the input in place. It succeeds only when every rule holds of what arrived; otherwise it names a
     * broken rule of the earliest turn and leaves the later fields as they were.
     */
    method Validate(key: string, fallback: Option<string>, urlOk: string -> bool) returns (broken: Option<Rule>)
      modifies this
      ensures broken.None? ==> Acceptable(old(Value()), key, urlOk)
      ensures broken.Some? ==> FirstBroken(broken.value, old(Value()), key, urlOk)
      ensures Value() == if broken.None? then Normalized(old(Value()), fallback)
                         else NormalizedUpTo(old(Value()), fallback, broken.value.Turn())
    {
      hide TrimSpace, Len, KeptBefore, Acceptable;
      ghost var v := Value();
      broken := ValidateScalars(key, fallback, urlOk);
      if broken.Some? { return; }
      broken := ValidateMetadata(Entries(metadata), v, key, urlOk);
      if broken.Some? { return; }
      broken := ResolveReturnUrl(fallback, urlOk);
      if broken.None? { Pass(ReturnUrlOk, v, key, urlOk); }
    }

    /** An explicit return URL is checked; the application's default was checked when it was stored. */
    method ResolveReturnUrl(fallback: Option<string>, urlOk: string -> bool) returns (broken: Option<Rule>)
      modifies this`returnUrl
      ensures broken == if Holds(ReturnUrlOk, old(Value()), "", urlOk) then None else Some(ReturnUrlOk)
      ensures returnUrl == if broken.None? then ReturnUrlOr(old(returnUrl), fallback) else old(returnUrl)
    {
      hide TrimSpace;
      if returnUrl.Some? {
        var url := TrimSpace(returnUrl.value);
        if url == "" {
          returnUrl := fallback;
        } else {
          if !urlOk(url) { return Some(ReturnUrlOk); }
          returnUrl := Some(url);
        }
      } else {
        returnUrl := fallback;
      }
      broken := None;
    }

    /** The checks before the metadata. */
    method ValidateScalars(key: string, fallback: Option<string>, urlOk: string -> bool) returns (broken: Option<Rule>)
      modifies this
      ensures broken.None? ==> KeptBefore(6, old(Value()), key, urlOk)
      ensures broken.Some? ==> FirstBroken(broken.value, old(Value()), key, urlOk)
      ensures Value() == NormalizedUpTo(old(Value()), fallback, if broken.None? then 6 else broken.value.Turn())
    {
      hide TrimSpace, Len, KeptBefore, Acceptable;
      ghost var v := Value();
      broken := ValidateKey(v, key, urlOk);
      if broken.Some? { return; }

      orderId := TrimSpace(orderId);
      if orderId == "" || Len(orderId) > MAX_ORDER_ID_LEN { return Some(OrderIdOk); }
      Pass(OrderIdOk, v, key, urlOk);

      if amount <= 0 { return Some(AmountPositive); }
      Pass(AmountPositive, v, key, urlOk);

      if currency == "" { currency := "RUB"; }
      if currency != "RUB" { return Some(OnlyRubles); }
      Pass(OnlyRubles, v, key, urlOk);

      description := TrimSpace(description);
      if Len(description) > MAX_DESCRIPTION_LEN { return Some(DescriptionShort); }
      Pass(DescriptionShort, v, key, urlOk);
    }
  }

  /** The Idempotency-Key header: judged trimmed, though the key itself is later used as it arrived. */
  method ValidateKey(ghost v: Fields, key: string, ghost urlOk: string -> bool) returns (broken: Option<Rule>)
    ensures broken.None? ==> KeptBefore(2, v, key, urlOk)
    ensures broken.Some? ==> broken.value.Turn() < 2 && FirstBroken(broken.value, v, key, urlOk)
  {
    hide TrimSpace, Len, KeptBefore;
    var trimmed := TrimSpace(key);
    Unbroken(v, key, urlOk);
    if trimmed == "" { return Some(KeyPresent); }
    Pass(KeyPresent, v, key, urlOk);
    if Len(trimmed) > MAX_KEY_LEN { return Some(KeyShort); }
    Pass(KeyShort, v, key, urlOk);
    broken := None;
  }

  /** The number of entries, then every entry. */
  method ValidateMetadata(entries: map<string, string>, ghost v: Fields, ghost key: string, ghost urlOk: string -> bool)
    returns (broken: Option<Rule>)
    requires entries == Entries(v.metadata) && KeptBefore(6, v, key, urlOk)
    ensures broken.None? ==> KeptBefore(8, v, key, urlOk)
    ensures broken.Some? ==> 6 <= broken.value.Turn() < 8 && FirstBroken(broken.value, v, key, urlOk)
  {
    hide Len, KeptBefore;
    if |entries| > MAX_METADATA_KEYS { return Some(FewMetadata); }
    Pass(FewMetadata, v, key, urlOk);
    broken := CheckMetadata(entries);
    if broken.Some? { return; }
    Pass(MetadataKeyOk, v, key, urlOk);
  }

  /** Visits the entries in an unspecified order and stops at the first bad one. */
  method CheckMetadata(entries: map<string, string>) returns (broken: Option<Rule>)
    ensures broken.None? <==> forall k :: k in entries ==> KeyFits(k) && Len(entries[k]) <= MAX_METADATA_VAL_LEN
    ensures broken.Some? ==> broken.value.MetadataKeyOk? || broken.value.MetadataValueOk?
    ensures broken == Some(MetadataKeyOk) ==> exists k :: k in entries && !KeyFits(k)
    ensures broken == Some(MetadataValueOk) ==> exists k :: k in entries && Len(entries[k]) > MAX_METADATA_VAL_LEN
  {
    hide Len;
    var rest := entries.Keys;
    while rest != {}
      invariant rest <= entries.Keys
      invariant forall k :: k in entries && k !in rest ==> KeyFits(k) && Len(entries[k]) <= MAX_METADATA_VAL_LEN
      decreases |rest|
    {
      var name :| name in rest;
      if !KeyFits(name) { return Some(MetadataKeyOk); }
      if Len(entries[name]) > MAX_METADATA_VAL_LEN { return Some(MetadataValueOk); }
      rest := rest - {name};
    }
    broken := None;
  }

  /** providerMetadata, entry by entry; our own identifiers are written last. */
  method ProviderMetadataOf(row: Payment, p: Uuid) returns (metadata: map<string, string>)
    ensures metadata == ProviderMetadata(row.details.metadata, row.slot, p)
  {
    metadata := map[];
    var rest := row.details.metadata.Keys;
    while rest != {}
      invariant rest <= row.details.metadata.Keys
      invariant metadata.Keys == row.details.metadata.Keys - rest
      invariant forall k :: k in metadata ==> metadata[k] == row.details.metadata[k]
      decreases |rest|
    {
      var key :| key in rest;
      metadata := metadata[key := row.details.metadata[key]];
      rest := rest - {key};
    }
    assert metadata == row.details.metadata;
    metadata := metadata["order_id" := Decimal(row.slot.order)];
    metadata := metadata["payment_id" := Decimal(p)];
  }

  lemma TrimSpaceTwice(s: string)
    ensures TrimSpace(TrimSpace(s)) == TrimSpace(s)
  {
    TrimNothing(TrimSpace(s), IsSpace);
  }

  /** The application's default return URL as createApplication stores it: absent, or trimmed and checked. */
  predicate StoredUrl(fallback: Option<string>, urlOk: string -> bool) {
    fallback.Some? ==> fallback.value != "" && TrimSpace(fallback.value) == fallback.value && urlOk(fallback.value)
  }

  /** What validation accepts it accepts again and no longer changes, so a replayed request has the same fingerprint. */
  lemma NormalizedIsStable(v: Fields, key: string, fallback: Option<string>, urlOk: string -> bool)
    requires Acceptable(v, key, urlOk) && StoredUrl(fallback, urlOk)
    ensures Acceptable(Normalized(v, fallback), key, urlOk)
    ensures Normalized(Normalized(v, fallback), fallback) == Normalized(v, fallback)
    ensures StoredUrl(Normalized(v, fallback).returnUrl, urlOk)
  {
    hide TrimSpace, Len;
    var n := Normalized(v, fallback);
    TrimSpaceTwice(v.orderId);
    TrimSpaceTwice(v.description);
    if v.returnUrl.Some? { TrimSpaceTwice(v.returnUrl.value); }
    forall rule: Rule ensures Holds(rule, n, key, urlOk) {
      assert Holds(rule, v, key, urlOk);
      assert Holds(ReturnUrlOk, v, key, urlOk);
    }
  }

  /** What the columns of the tables and the provider's limits allow, counted in characters. */
  ghost predicate Fits(v: Fields, key: string) {
    && 1 <= |TrimSpace(key)| <= 64
    && 1 <= |TrimSpace(v.orderId)| <= 128
    && v.amount >= 1
    && (v.currency == "" || v.currency == "RUB")
    && |TrimSpace(v.description)| <= 128
    && |Entries(v.metadata)| <= 20
    && forall k :: k in Entries(v.metadata) ==> 1 <= |k| <= 40 && |Entries(v.metadata)[k]| <= 64
  }

  ghost predicate AllAscii(v: Fields, key: string) {
    && Ascii(key) && Ascii(v.orderId) && Ascii(v.description)
    && forall k :: k in Entries(v.metadata) ==> Ascii(k) && Ascii(Entries(v.metadata)[k])
  }

  /** Limits are in bytes: what is accepted fits in characters too, and for ASCII texts the two are the same. */
  lemma AcceptedFits(v: Fields, key: string, urlOk: string -> bool)
    ensures Acceptable(v, key, urlOk) ==> Fits(v, key)
    ensures AllAscii(v, key) ==> (Acceptable(v, key, urlOk) <==> Fits(v, key) && Holds(ReturnUrlOk, v, key, urlOk))
  {
    hide Fits, AllAscii;
    if Acceptable(v, key, urlOk) { InBytesInCharacters(v, key, urlOk); }
    hide Acceptable;
    if AllAscii(v, key) && Fits(v, key) && Holds(ReturnUrlOk, v, key, urlOk) { AsciiIsAccepted(v, key, urlOk); }
  }

  lemma InBytesInCharacters(v: Fields, key: string, urlOk: string -> bool)
    requires Acceptable(v, key, urlOk)
    ensures Fits(v, key)
  {
    hide TrimSpace, Len;
    assert Holds(KeyPresent, v, key, urlOk) && Holds(KeyShort, v, key, urlOk) && Holds(OrderIdOk, v, key, urlOk);
    assert Holds(AmountPositive, v, key, urlOk) && Holds(OnlyRubles, v, key, urlOk) && Holds(DescriptionShort, v, key, urlOk);
    assert Holds(FewMetadata, v, key, urlOk) && Holds(MetadataKeyOk, v, key, urlOk) && Holds(MetadataValueOk, v, key, urlOk);
    hide Acceptable;
  }

  lemma AsciiIsAccepted(v: Fields, key: string, urlOk: string -> bool)
    requires AllAscii(v, key) && Fits(v, key) && Holds(ReturnUrlOk, v, key, urlOk)
    ensures Acceptable(v, key, urlOk)
  {
    hide TrimSpace, Len;
    TrimmedAscii(key);
    TrimmedAscii(v.orderId);
    TrimmedAscii(v.description);
    forall k | k in Entries(v.metadata) ensures Len(k) == |k| && Len(Entries(v.metadata)[k]) == |Entries(v.metadata)[k]| {
      AsciiLen(k);
      AsciiLen(Entries(v.metadata)[k]);
    }
    hide Ascii;
  }

  lemma TrimmedAscii(s: string)
    requires Ascii(s)
    ensures Len(TrimSpace(s)) == |TrimSpace(s)|
  {
    hide Len, TrimSpace, IsSpace;
    TrimSpaceIs(s);
    AsciiLen(TrimSpace(s));
  }

  /**
   * Normalization cuts white space off the order id, the description and the return URL, fills in the currency and the
   * application's return URL where they are missing, and changes nothing else.
   */
  lemma NormalizedOnlyTrims(v: Fields, fallback: Option<string>)
    ensures var n := Normalized(v, fallback);
            && TrimmedOf(n.orderId, v.orderId) && TrimmedOf(n.description, v.description)
            && n.amount == v.amount && n.metadata == v.metadata
            && n.currency == (if v.currency == "" then "RUB" else v.currency)
            && (if v.returnUrl.Some? && !Blank(v.returnUrl.value)
                then n.returnUrl.Some? && TrimmedOf(n.returnUrl.value, v.returnUrl.value) else n.returnUrl == fallback)
  {
    hide TrimSpace, IsSpace;
    TrimSpaceIs(v.orderId);
    TrimSpaceIs(v.description);
    if v.returnUrl.Some? {
      TrimSpaceIs(v.returnUrl.value);
      BlankTrims(v.returnUrl.value);
    }
  }

  lemma BlankTrims(s: string)
    ensures TrimSpace(s) == "" <==> Blank(s)
  {
    hide IsSpace, TrimSpace;
    TrimSpaceIs(s);
    var r := TrimSpace(s);
    var i, j :| 0 <= i <= j <= |s| && r == s[i..j] && Blank(s[..i]) && Blank(s[j..]);
    if r == "" {
      assert s == s[..i] + s[j..];
    } else {
      assert s[i] == r[0];
    }
  }

  /** The provider's trace entries win over the client's, and every other client entry survives. */
  lemma TraceWins(metadata: map<string, string>, slot: Slot, p: Uuid, k: string)
    ensures var sent := ProviderMetadata(metadata, slot, p);
            && sent.Keys == metadata.Keys + {"order_id", "payment_id"}
            && sent["order_id"] == Decimal(slot.order) && sent["payment_id"] == Decimal(p)
            && (k in metadata && k != "order_id" && k != "payment_id" ==> sent[k] == metadata[k])
  {
    assert "order_id"[0] != "payment_id"[0];
  }
}
