/** The length-prefixed text that every id hash is made of (idempotency_hash,
    ownership_id, like_id, moderation_block_id, generation and IAP ids): parts
    become `<length>:<bytes>`, joined by `|`. */
module Canonical {
  import opened Wrappers
  import opened LedgerModel

  type Byte = b: int | 0 <= b < 256

  const COLON: Byte := 58
  const BAR: Byte := 124
  const ZERO := 48

  /** Decimal digits of a length, as text. */
  function Digits(n: nat): seq<Byte> {
    if n < 10 then [ZERO + n] else Digits(n / 10) + [ZERO + n % 10]
  }

  function Part(part: seq<Byte>): seq<Byte> { Digits(|part|) + [COLON] + part }

  function Encode(parts: seq<seq<Byte>>): seq<Byte> {
    if parts == [] then []
    else if |parts| == 1 then Part(parts[0])
    else Part(parts[0]) + [BAR] + Encode(parts[1..])
  }

  predicate IsDigit(b: Byte) { ZERO <= b < ZERO + 10 }

  /** Read a decimal number up to the colon; the number and what follows. */
  function ReadLength(s: seq<Byte>, sofar: nat): Option<(nat, seq<Byte>)> {
    if s == [] then None
    else if s[0] == COLON then Some((sofar, s[1..]))
    else if IsDigit(s[0]) then ReadLength(s[1..], sofar * 10 + (s[0] - ZERO))
    else None
  }

  lemma {:induction false} LengthShrinks(s: seq<Byte>, sofar: nat)
    ensures ReadLength(s, sofar).Some? ==> |ReadLength(s, sofar).value.1| < |s|
  {
    if s != [] && s[0] != COLON && IsDigit(s[0]) {
      LengthShrinks(s[1..], sofar * 10 + (s[0] - ZERO));
    }
  }

  /** The decoder: length, that many bytes, then a bar and the next part. */
  function Decode(s: seq<Byte>): Option<seq<seq<Byte>>>
    decreases |s|
  {
    if s == [] then Some([])
    else
      var length := ReadLength(s, 0);
      if length.None? || length.value.0 > |length.value.1| then None
      else
        LengthShrinks(s, 0);
        var (n, rest) := length.value;
        if |rest| == n then Some([rest])
        else if rest[n] != BAR then None
        else
          var others := Decode(rest[n + 1..]);
          if others.None? then None else Some([rest[..n]] + others.value)
  }

  /** The number that digits read after `sofar` amount to. */
  function Value(sofar: nat, digits: seq<Byte>): int {
    if digits == [] then sofar
    else Value(sofar, digits[..|digits| - 1]) * 10 + (digits[|digits| - 1] - ZERO)
  }

  predicate AllDigits(s: seq<Byte>) { forall i :: 0 <= i < |s| ==> IsDigit(s[i]) }

  lemma {:induction false} ValuePrepend(sofar: nat, d: Byte, digits: seq<Byte>)
    requires IsDigit(d)
    ensures Value(sofar, [d] + digits) == Value(sofar * 10 + (d - ZERO), digits)
    decreases |digits|
  {
    var all := [d] + digits;
    if digits == [] {
      assert all[..|all| - 1] == [];
    } else {
      assert all[..|all| - 1] == [d] + digits[..|digits| - 1];
      ValuePrepend(sofar, d, digits[..|digits| - 1]);
    }
  }

  lemma {:induction false} ReadsDigits(digits: seq<Byte>, rest: seq<Byte>, sofar: nat)
    requires AllDigits(digits)
    ensures ReadLength(digits + [COLON] + rest, sofar) == Some((Value(sofar, digits), rest))
    decreases |digits|
  {
    var s := digits + [COLON] + rest;
    if digits == [] {
      assert s[0] == COLON && s[1..] == rest;
    } else {
      assert s[0] == digits[0] && s[1..] == digits[1..] + [COLON] + rest;
      assert digits == [digits[0]] + digits[1..];
      ReadsDigits(digits[1..], rest, sofar * 10 + (digits[0] - ZERO));
      ValuePrepend(sofar, digits[0], digits[1..]);
    }
  }

  lemma {:induction false} DigitsSpell(n: nat)
    ensures AllDigits(Digits(n)) && Value(0, Digits(n)) == n && |Digits(n)| > 0
  {
    var all := Digits(n);
    if n < 10 {
      assert all[..|all| - 1] == [];
    } else {
      DigitsSpell(n / 10);
      assert all[..|all| - 1] == Digits(n / 10);
    }
  }

  lemma DecodesLast(part: seq<Byte>)
    ensures Decode(Part(part)) == Some([part])
  {
    DigitsSpell(|part|);
    ReadsDigits(Digits(|part|), part, 0);
  }

  lemma DecodesNext(part: seq<Byte>, more: seq<Byte>)
    ensures Decode(Part(part) + [BAR] + more)
         == if Decode(more).None? then None else Some([part] + Decode(more).value)
  {
    var tail := part + [BAR] + more;
    DigitsSpell(|part|);
    ReadsDigits(Digits(|part|), tail, 0);
    assert Part(part) + [BAR] + more == Digits(|part|) + [COLON] + tail;
    assert tail[..|part|] == part && tail[|part|] == BAR && tail[|part| + 1..] == more;
  }

  /** The decoder undoes the encoding of every list of byte strings, whatever
      colons, bars and digits the strings contain. */
  lemma {:induction false} DecodeUndoesEncode(parts: seq<seq<Byte>>)
    ensures Decode(Encode(parts)) == Some(parts)
    decreases |parts|
  {
    if |parts| == 1 {
      DecodesLast(parts[0]);
      assert parts == [parts[0]];
    } else if |parts| > 1 {
      DecodesNext(parts[0], Encode(parts[1..]));
      DecodeUndoesEncode(parts[1..]);
      assert parts == [parts[0]] + parts[1..];
    }
  }

  /** So no two different lists are encoded alike. */
  lemma EncodingIsInjective(a: seq<seq<Byte>>, b: seq<seq<Byte>>)
    requires Encode(a) == Encode(b)
    ensures a == b
  {
    DecodeUndoesEncode(a);
    DecodeUndoesEncode(b);
  }

  // Ledger keys.

  /** What the ledger stores for each reason. */
  function ReasonValue(r: ShardReason): string {
    match r
    case DailyAttendance => "daily_attendance"
    case RewardedAd => "rewarded_ad"
    case IapPurchase => "iap_purchase"
    case AiSticker => "ai_sticker"
    case AiMirror => "ai_mirror"
    case MirrorPurchase => "mirror_purchase"
    case MirrorSale => "mirror_sale"
    case StickerPurchase => "sticker_purchase"
    case StickerSale => "sticker_sale"
    case ModerationCompensation => "marketplace_moderation_compensation"
    case MirrorPublishFee => "mirror_publish_fee"
    case StickerPublishFee => "sticker_publish_fee"
    case Refund => "refund"
    case IapRefund => "iap_refund"
    case IapRefundReversed => "iap_refund_reversed"
    case MirrorCapacityPurchase => "mirror_capacity_purchase"
    case CatalogTemplatePurchase => "catalog_template_purchase"
    case GuestClaim => "guest_claim"
    case AdminAdjustment => "admin_adjustment"
  }

  /** The bytes of a text whose characters all are ASCII, as reason values are. */
  function Bytes(s: string): seq<Byte> {
    seq(|s|, i requires 0 <= i < |s| => s[i] as int % 256)
  }

  /** No two reasons share a value: length and first letter tell them apart. */
  lemma ReasonValuesDiffer(a: ShardReason, b: ShardReason)
    requires Bytes(ReasonValue(a)) == Bytes(ReasonValue(b))
    ensures a == b
  {
    var x, y := ReasonValue(a), ReasonValue(b);
    assert |x| == |Bytes(x)| && |y| == |Bytes(y)| && |x| > 0 && |y| > 0;
    assert Bytes(x)[0] == x[0] as int % 256 && Bytes(y)[0] == y[0] as int % 256;
  }

  /** The text whose hash is an idempotency key. */
  function KeyText(user: seq<Byte>, reason: ShardReason, event: seq<Byte>): seq<Byte> {
    Encode([user, Bytes(ReasonValue(reason)), event])
  }

  /** Equal key texts name the same user, reason and event. */
  lemma KeyTextIsInjective(user: seq<Byte>, reason: ShardReason, event: seq<Byte>,
                           user': seq<Byte>, reason': ShardReason, event': seq<Byte>)
    requires KeyText(user, reason, event) == KeyText(user', reason', event')
    ensures user == user' && reason == reason' && event == event'
  {
    var a, b := Bytes(ReasonValue(reason)), Bytes(ReasonValue(reason'));
    EncodingIsInjective([user, a, event], [user', b, event']);
    assert [user, a, event][0] == user && [user, a, event][1] == a && [user, a, event][2] == event;
    ReasonValuesDiffer(reason, reason');
  }
}
