/** The two per-item helpers of the order processor: the delivered test and the
    delivery-notification counter increment. */
module Items {
  import opened JsonTokens
  import opened Ascii

  const StatusKey: string := "Status"
  const CounterKey: string := "deliveryNotification"
  const DeliveredWord: string := "Delivered"

  const Int32Min: int := -0x8000_0000
  const Int32Max: int := 0x7fff_ffff

  /** JToken.ToString() of a scalar token; arrays and objects (None) print as
      indented JSON text, which starts with '[' or '{'. */
  function ScalarText(j: Json): Option<string>
  {
    match j
    case JNull => Some("")
    case JBool(b) => Some(if b then "True" else "False")
    case JInt(n) => Some(DecimalText(n))
    case JString(s) => Some(s)
    case JArray(_) => None
    case JObject(_) => None
  }

  /** Reference definition of the accepted spellings: nine characters, each
      the lower- or upper-case form of the letter of "Delivered" at that place. */
  predicate IsDeliveredSpelling(s: string)
  {
    |s| == 9 && forall i :: 0 <= i < 9 ==> s[i] == "delivered"[i] || s[i] == "DELIVERED"[i]
  }

  /** `item["Status"]?.ToString().Equals("Delivered", OrdinalIgnoreCase) ?? false`. */
  predicate IsItemDelivered(item: Obj)
  {
    match Lookup(item, StatusKey)
    case None => false
    case Some(status) =>
      match ScalarText(status)
      case Some(text) => EqualsIgnoreCase(text, DeliveredWord)
      // the text of an array or object begins with a bracket, never a letter
      case None => false
  }

  lemma DeliveredIgnoreCaseIsSpelling(s: string)
    ensures EqualsIgnoreCase(s, DeliveredWord) <==> IsDeliveredSpelling(s)
  {
    if |s| == 9 {
      forall i | 0 <= i < 9
        ensures UpperAscii(s[i]) == UpperAscii(DeliveredWord[i])
                <==> s[i] == "delivered"[i] || s[i] == "DELIVERED"[i]
      {
        assert UpperAscii(DeliveredWord[i]) == "DELIVERED"[i];
        UpperAsciiMatchesLetter(s[i], "DELIVERED"[i]);
      }
    }
  }

  /** An item is delivered exactly when it has a string Status spelled
      "Delivered" in any letter case; a missing Status, null, a boolean, a
      number, an array or an object never is. */
  lemma DeliveredIffStatusSpelling(item: Obj)
    ensures IsItemDelivered(item) <==>
              StatusKey in item && item[StatusKey].JString? && IsDeliveredSpelling(item[StatusKey].s)
    ensures StatusKey !in item ==> !IsItemDelivered(item)
  {
    if StatusKey in item {
      var status := item[StatusKey];
      match ScalarText(status)
      case Some(text) =>
        DeliveredIgnoreCaseIsSpelling(text);
        if status.JInt? && |text| == 9 {
          assert UpperAscii(text[0]) != UpperAscii(DeliveredWord[0]);
        }
      case None =>
    }
  }

  predicate InInt32(n: int)
  {
    Int32Min <= n <= Int32Max
  }

  /** `token.Value<int>()`: an integer token converts when it fits in 32 bits
      (Convert.ToInt32 of an Int64 overflows otherwise), a boolean converts to
      1 or 0, and every other modelled token (null, a string, an array, an
      object) is modelled as throwing (None). */
  function ToInt32(token: Json): (r: Option<int>)
    ensures r.Some? ==> InInt32(r.value)
  {
    match token
    case JInt(n) => if InInt32(n) then Some(n) else None
    case JBool(b) => Some(if b then 1 else 0)
    case _ => None
  }

  /** C# `int` addition of one, unchecked: int.MaxValue + 1 wraps to int.MinValue. */
  function Int32Succ(n: int): (r: int)
    requires InInt32(n)
    ensures InInt32(r)
    ensures n < Int32Max ==> r == n + 1
    ensures n == Int32Max ==> r == Int32Min
    // two's-complement wrap-around: the result agrees with n + 1 modulo 2^32
    ensures (r - (n + 1)) % 0x1_0000_0000 == 0
  {
    if n == Int32Max then Int32Min else n + 1
  }

  /** Unchecked addition is the only 32-bit value congruent to n + 1 modulo
      2^32: any in-range m that agrees with n + 1 modulo 2^32 is Int32Succ(n). */
  lemma Int32SuccUnique(n: int, m: int)
    requires InInt32(n) && InInt32(m)
    requires (m - (n + 1)) % 0x1_0000_0000 == 0
    ensures m == Int32Succ(n)
  {
    var d := m - Int32Succ(n);
    assert d % 0x1_0000_0000 == 0;
    assert -0x1_0000_0000 < d < 0x1_0000_0000;
  }

  /** The counter an item carries before an increment: an absent key counts as 0. */
  function PriorCount(item: Obj): Option<int>
  {
    match Lookup(item, CounterKey)
    case None => Some(0)
    case Some(token) => ToInt32(token)
  }

  /** `item["deliveryNotification"] = item["deliveryNotification"]?.Value<int>() + 1 ?? 1`.
      None is the exception Value<int>() throws on a token it cannot convert. */
  function IncrementDeliveryNotification(item: Obj): (r: Option<Obj>)
    // it fails exactly when the stored counter does not convert to an int
    ensures r.Some? <==> PriorCount(item).Some?
    // the counter key is the only one written
    ensures r.Some? ==> r.value.Keys == item.Keys + {CounterKey}
    // the counter becomes the prior count plus one (absent counts as 0)
    ensures r.Some? ==> r.value[CounterKey] == JInt(Int32Succ(PriorCount(item).value))
    ensures r.Some? ==> forall k :: k in item && k != CounterKey ==> r.value[k] == item[k]
  {
    match Lookup(item, CounterKey)
    case None => Some(item[CounterKey := JInt(1)])
    case Some(token) =>
      match ToInt32(token)
      case Some(n) => Some(item[CounterKey := JInt(Int32Succ(n))])
      case None => None
  }

  /** The increment preserves the delivered test: it writes only the counter. */
  lemma IncrementKeepsDelivered(item: Obj)
    requires IncrementDeliveryNotification(item).Some?
    ensures IsItemDelivered(IncrementDeliveryNotification(item).value) == IsItemDelivered(item)
  {
    var after := IncrementDeliveryNotification(item).value;
    assert StatusKey != CounterKey;
    assert Lookup(after, StatusKey) == Lookup(item, StatusKey);
  }

  /** The two concrete counter cases: absent gives 1, n gives n + 1 below int.MaxValue. */
  lemma IncrementFromAbsentOrCount(item: Obj)
    ensures CounterKey !in item ==>
              IncrementDeliveryNotification(item) == Some(item[CounterKey := JInt(1)])
    ensures CounterKey in item && item[CounterKey].JInt? && Int32Min <= item[CounterKey].n < Int32Max ==>
              IncrementDeliveryNotification(item) == Some(item[CounterKey := JInt(item[CounterKey].n + 1)])
  {
  }
}
