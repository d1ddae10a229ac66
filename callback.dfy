/**
 * The report buttons of main.py: cmd_report gives shop `i` the callback data
 * `'report_' + str(i)` (main.py:171) and process_report reads the part after
 * the 7-character prefix (main.py:179) to find the shop.
 */
module Callback {
  import opened Common
  import opened Shops

  const Prefix: string := "report_"

  predicate IsDigit(c: char)
  {
    '0' <= c <= '9'
  }

  predicate AllDigits(s: string)
  {
    forall i :: 0 <= i < |s| ==> IsDigit(s[i])
  }

  function DigitChar(d: nat): (c: char)
    requires d < 10
    ensures IsDigit(c)
  {
    (48 + d) as char
  }

  function DigitValue(c: char): (d: nat)
    requires IsDigit(c)
    ensures d < 10 && DigitChar(d) == c
  {
    c as int - 48
  }

  /** Python's `str(n)` for a non-negative integer: decimal digits, no leading zero. */
  function NatToString(n: nat): (s: string)
    ensures |s| >= 1 && AllDigits(s)
    ensures s[0] == '0' ==> n == 0 && |s| == 1
    decreases n
  {
    if n < 10 then [DigitChar(n)] else NatToString(n / 10) + [DigitChar(n % 10)]
  }

  /** The value of a string of decimal digits, most significant first. */
  function DigitsValue(s: string): nat
    requires AllDigits(s)
  {
    if s == [] then 0 else DigitsValue(s[..|s| - 1]) * 10 + DigitValue(s[|s| - 1])
  }

  /** Reading a button's index back: a non-empty string of decimal digits. */
  function ParseNat(s: string): (r: Option<nat>)
    ensures r.Some? <==> |s| > 0 && AllDigits(s)
  {
    if |s| > 0 && AllDigits(s) then Some(DigitsValue(s)) else None
  }

  /** Parsing the decimal form of `n` gives `n` back. */
  lemma {:induction false} ParseNatToString(n: nat)
    ensures ParseNat(NatToString(n)) == Some(n)
    decreases n
  {
    var s := NatToString(n);
    if n >= 10 {
      ParseNatToString(n / 10);
      assert s[..|s| - 1] == NatToString(n / 10);
      assert DigitValue(s[|s| - 1]) == n % 10;
      assert DigitsValue(s) == (n / 10) * 10 + n % 10;
    } else {
      assert DigitsValue(s) == DigitsValue([]) * 10 + DigitValue(s[0]);
    }
  }

  /** The callback data of the button for the shop at index `i`. */
  function Encode(i: nat): (data: string)
    ensures IsReportCallback(data)
    ensures Suffix(data) == NatToString(i)
  {
    Prefix + NatToString(i)
  }

  /** process_report's filter `c.data.startswith('report_')` (main.py:177). */
  predicate IsReportCallback(data: string)
  {
    |data| >= |Prefix| && data[..|Prefix|] == Prefix
  }

  /** `callback.data[7:]`: empty when the data is shorter than the prefix. */
  function Suffix(data: string): (r: string)
    ensures |data| >= |Prefix| ==> data == data[..|Prefix|] + r
    ensures |data| < |Prefix| ==> r == []
  {
    if |data| < |Prefix| then [] else data[|Prefix|..]
  }

  /** Two buttons' data differ whenever their indices do. */
  lemma EncodeInjective(i: nat, j: nat)
    requires Encode(i) == Encode(j)
    ensures i == j
  {
    ParseNatToString(i);
    ParseNatToString(j);
  }

  /**
   * process_report as written (main.py:179-181): the suffix, an index, is
   * compared with shop names.
   */
  function SelectAsWritten(shops: seq<Shop>, data: string): (r: Option<Shop>)
    ensures r.Some? ==> r.value in shops && r.value.name == Suffix(data)
    ensures r.Some? ==> exists i :: 0 <= i < |shops| && r.value == shops[i]
                                    && forall j :: 0 <= j < i ==> shops[j].name != Suffix(data)
    ensures r.None? <==> forall j :: 0 <= j < |shops| ==> shops[j].name != Suffix(data)
  {
    match FirstNamed(shops, Suffix(data))
    case None => None
    case Some(i) => Some(shops[i])
  }

  /** The evident intent: the suffix is the shop's index in the registry. */
  function Select(shops: seq<Shop>, data: string): (r: Option<Shop>)
    ensures r.Some? ==> r.value in shops
    ensures r.Some? <==> ParseNat(Suffix(data)).Some? && ParseNat(Suffix(data)).value < |shops|
    ensures r.Some? ==> r.value == shops[ParseNat(Suffix(data)).value]
  {
    match ParseNat(Suffix(data))
    case Some(i) => if i < |shops| then Some(shops[i]) else None
    case None => None
  }

  /** Each button selects the shop it was made for. */
  lemma SelectEncode(shops: seq<Shop>, i: nat)
    requires i < |shops|
    ensures Select(shops, Encode(i)) == Some(shops[i])
  {
    ParseNatToString(i);
  }

  /**
   * As written, a button finds a shop only when some shop is named by digits:
   * for ordinary names no button leads to a report.
   */
  lemma SelectAsWrittenNeedsDigitName(shops: seq<Shop>, i: nat)
    requires SelectAsWritten(shops, Encode(i)).Some?
    ensures exists j :: 0 <= j < |shops| && |shops[j].name| > 0 && AllDigits(shops[j].name)
  {
    var shop := SelectAsWritten(shops, Encode(i)).value;
    var j :| 0 <= j < |shops| && shops[j] == shop;
    assert shops[j].name == NatToString(i);
  }

  /** The concrete case: one shop "Ozon", its button `report_0`. */
  lemma SelectAsWrittenMissesOnlyShop()
    ensures SelectAsWritten([Shop("Ozon", "key")], Encode(0)).None?
    ensures Select([Shop("Ozon", "key")], Encode(0)) == Some(Shop("Ozon", "key"))
  {
    assert NatToString(0) == "0";
    SelectEncode([Shop("Ozon", "key")], 0);
  }

  /** An inline button: its caption and its callback data. */
  datatype Button = Button(caption: string, data: string)

  /** cmd_report's keyboard (main.py:169-172): one button per shop, in registry order. */
  function Buttons(shops: seq<Shop>): (r: seq<Button>)
    ensures |r| == |shops|
    ensures forall i :: 0 <= i < |r| ==> r[i].caption == shops[i].name && Select(shops, r[i].data) == Some(shops[i])
    ensures forall i :: 0 <= i < |r| ==> r[i].data == Encode(i) && IsReportCallback(r[i].data)
  {
    forall i | 0 <= i < |shops| ensures Select(shops, Encode(i)) == Some(shops[i]) {
      SelectEncode(shops, i);
    }
    seq(|shops|, i requires 0 <= i < |shops| => Button(shops[i].name, Encode(i)))
  }

  /**
   * cmd_report's keyboard as written (main.py:169-172) uses the aiogram 2 API:
   * aiogram 3's `InlineKeyboardMarkup()` requires `inline_keyboard`,
   * `InlineKeyboardButton` takes no positional text and has no `add`, so the
   * construction raises and no keyboard is ever sent.
   */
  function KeyboardAsWritten(shops: seq<Shop>): (r: Option<seq<Button>>)
    ensures r.None?
  {
    None
  }

  /** For any registered shop, as written no button reaches the user; as intended each shop has its own. */
  lemma KeyboardAsWrittenNeverSent(shops: seq<Shop>)
    requires shops != []
    ensures KeyboardAsWritten(shops).None?
    ensures |Buttons(shops)| == |shops| && Select(shops, Buttons(shops)[0].data) == Some(shops[0])
  {
  }
}
