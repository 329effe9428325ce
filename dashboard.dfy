/**
 * The dashboard (`Dashboard`, frontend/app/page.tsx): four stat cards, a
 * processing-status panel of progress bars and a short list of recent
 * claims, all drawn from constant arrays.
 */
module Dashboard {
  import opened Wrappers
  import opened Decimal
  import ClaimsList

  datatype StatIcon = FileTextIcon | CheckCircleIcon | ClockIcon | AlertCircleIcon

  datatype Stat = Stat(title: string, value: string, icon: StatIcon, color: string)

  /** The `stats` literal; the values are display strings. */
  const Stats: seq<Stat> := [
    Stat("Total Claims", "124", FileTextIcon, "bg-blue-100 text-blue-700"),
    Stat("Approved", "78", CheckCircleIcon, "bg-green-100 text-green-700"),
    Stat("Pending", "32", ClockIcon, "bg-yellow-100 text-yellow-700"),
    Stat("Rejected", "14", AlertCircleIcon, "bg-red-100 text-red-700")
  ]

  datatype RecentClaim = RecentClaim(id: string, kind: string, status: string, amount: string, date: string)

  /** The `recentClaims` literal. */
  const RecentClaims: seq<RecentClaim> := [
    RecentClaim("CL-2023-0042", "Auto Insurance", "Approved", "$1,250.00", "2023-06-15"),
    RecentClaim("CL-2023-0041", "Home Insurance", "Pending", "$3,750.00", "2023-06-14"),
    RecentClaim("CL-2023-0040", "Health Insurance", "Rejected", "$850.00", "2023-06-12"),
    RecentClaim("CL-2023-0039", "Auto Insurance", "Approved", "$2,100.00", "2023-06-10")
  ]

  /** The values are integer literals, modelled as `int` rather than as JavaScript numbers. */
  datatype ProcessingItem = ProcessingItem(name: string, value: int)

  /** The inline array of the processing-status panel. */
  const ProcessingItems: seq<ProcessingItem> := [
    ProcessingItem("Auto Insurance", 85),
    ProcessingItem("Home Insurance", 65),
    ProcessingItem("Health Insurance", 92)
  ]

  // ---------------------------------------------------------------------------
  // Stats

  /** frontend/app/page.tsx:17-22: the three outcome counts add up to the total. */
  lemma StatsAddUp()
    ensures forall i :: 0 <= i < |Stats| ==> AllDigits(Stats[i].value)
    ensures DigitsValue(Stats[1].value) + DigitsValue(Stats[2].value) + DigitsValue(Stats[3].value)
         == DigitsValue(Stats[0].value)
  {
    assert DigitsValue("1") == 1 && DigitsValue("12") == 12 && DigitsValue("124") == 124;
    assert DigitsValue("7") == 7 && DigitsValue("78") == 78;
    assert DigitsValue("3") == 3 && DigitsValue("32") == 32;
    assert DigitsValue("14") == 14;
  }

  // ---------------------------------------------------------------------------
  // Recent claims

  /** The status line's colour. */
  function StatusTextClass(status: string): (c: string)
    ensures c == "text-green-600" <==> status == "Approved"
    ensures c == "text-yellow-600" <==> status == "Pending"
    ensures c == "text-red-600" <==> status != "Approved" && status != "Pending"
  {
    if status == "Approved" then "text-green-600"
    else if status == "Pending" then "text-yellow-600"
    else "text-red-600"
  }

  /**
   * frontend/app/page.tsx:167-171: approved is green, pending yellow, and
   * every other string red; the tone is the one the claims list's badge uses.
   */
  lemma StatusTextCases(status: string)
    ensures status == "Approved" ==> StatusTextClass(status) == "text-green-600"
    ensures status == "Pending" ==> StatusTextClass(status) == "text-yellow-600"
    ensures status != "Approved" && status != "Pending" ==> StatusTextClass(status) == "text-red-600"
    ensures StatusTextClass(status) == "text-" + ClaimsList.ToneName(ClaimsList.ToneOf(status)) + "-600"
  {
  }

  /** `index < recentClaims.length - 1`, in the page's signed arithmetic. */
  function HasSeparatorAfter(index: nat, length: nat): (b: bool)
    ensures b <==> index + 1 < length
    ensures length == 0 ==> !b
  {
    index < length as int - 1
  }

  datatype RecentView = RecentView(key: nat, id: string, kind: string, amount: string, status: string, statusClass: string, separator: bool)

  /** One entry of the list: the claim's fields, its status colour, and a separator unless it is the last. */
  function RecentEntry(c: RecentClaim, index: nat, length: nat): (v: RecentView)
    ensures v.key == index && v.id == c.id && v.kind == c.kind && v.amount == c.amount && v.status == c.status
    ensures v.statusClass == StatusTextClass(c.status)
    ensures v.separator <==> index + 1 < length
  {
    RecentView(index, c.id, c.kind, c.amount, c.status, StatusTextClass(c.status), HasSeparatorAfter(index, length))
  }

  /** `claims.map((claim, index) => ...)`, from position `start` of a list of `length` entries. */
  function RenderRecentFrom(claims: seq<RecentClaim>, start: nat, length: nat): (vs: seq<RecentView>)
    ensures |vs| == |claims|
    ensures forall k :: 0 <= k < |claims| ==> vs[k] == RecentEntry(claims[k], start + k, length)
    decreases |claims|
  {
    if claims == [] then []
    else [RecentEntry(claims[0], start, length)] + RenderRecentFrom(claims[1..], start + 1, length)
  }

  function RenderRecent(claims: seq<RecentClaim>): seq<RecentView> {
    RenderRecentFrom(claims, 0, |claims|)
  }

  /** How many separators a rendered list draws. */
  function SeparatorCount(vs: seq<RecentView>): nat
    decreases |vs|
  {
    if vs == [] then 0 else (if vs[0].separator then 1 else 0) + SeparatorCount(vs[1..])
  }

  /** A list whose entries carry a separator exactly when another entry follows draws one fewer than it has entries. */
  lemma {:induction false} CountAllButLast(vs: seq<RecentView>)
    requires forall i :: 0 <= i < |vs| ==> (vs[i].separator <==> i < |vs| - 1)
    ensures SeparatorCount(vs) == if |vs| == 0 then 0 else |vs| - 1
    decreases |vs|
  {
    if vs != [] {
      var rest := vs[1..];
      assert forall i :: 0 <= i < |rest| ==> rest[i] == vs[i + 1];
      CountAllButLast(rest);
    }
  }

  /**
   * frontend/app/page.tsx:150,178: one entry per claim, in literal order;
   * a separator follows an entry iff another one comes after it, so `n`
   * entries draw `n - 1` separators and none follows the last.
   */
  lemma RecentListShape(claims: seq<RecentClaim>)
    ensures |RenderRecent(claims)| == |claims|
    ensures forall i :: 0 <= i < |claims| ==>
      var v := RenderRecent(claims)[i];
      && v.key == i && v.id == claims[i].id && v.kind == claims[i].kind
      && v.amount == claims[i].amount && v.status == claims[i].status
      && v.statusClass == StatusTextClass(claims[i].status)
      && (v.separator <==> i + 1 < |claims|)
    ensures |claims| > 0 ==> !RenderRecent(claims)[|claims| - 1].separator
    ensures SeparatorCount(RenderRecent(claims)) == if |claims| == 0 then 0 else |claims| - 1
  {
    CountAllButLast(RenderRecent(claims));
  }

  /** The dashboard's list: four entries, three separators, none after the last. */
  lemma RecentClaimsShape()
    ensures |RenderRecent(RecentClaims)| == 4
    ensures SeparatorCount(RenderRecent(RecentClaims)) == 3
    ensures !RenderRecent(RecentClaims)[3].separator
  {
    RecentListShape(RecentClaims);
  }

  /** The four recent claims are the first four claims of the claims list, without the claimant. */
  lemma RecentClaimsLeadTheClaimsList()
    ensures |RecentClaims| <= |ClaimsList.Claims|
    ensures forall i :: 0 <= i < |RecentClaims| ==>
      var c := ClaimsList.Claims[i];
      RecentClaims[i] == RecentClaim(c.id, c.kind, c.status, c.amount, c.date)
  {
  }

  // ---------------------------------------------------------------------------
  // Processing status

  datatype ProcessingView = ProcessingView(key: nat, name: string, percentText: string, barValue: int)

  /**
   * `{item.value}%` next to `<Progress value={item.value} />`; for the integer
   * literals of this array JSX writes the same digits as `IntToDecimal`. The
   * text is a number and a `%`, and the number reads back as the bar's value.
   */
  function ProcessingEntry(item: ProcessingItem, index: nat): (v: ProcessingView)
    ensures v.key == index && v.name == item.name && v.barValue == item.value
    ensures |v.percentText| > 1 && v.percentText[|v.percentText| - 1] == '%'
    ensures ParseInt(v.percentText[..|v.percentText| - 1]) == Some(item.value)
  {
    IntToDecimalRoundTrip(item.value);
    assert (IntToDecimal(item.value) + "%")[..|IntToDecimal(item.value)|] == IntToDecimal(item.value);
    ProcessingView(index, item.name, IntToDecimal(item.value) + "%", item.value)
  }

  function RenderProcessingFrom(items: seq<ProcessingItem>, start: nat): (vs: seq<ProcessingView>)
    ensures |vs| == |items|
    ensures forall k :: 0 <= k < |items| ==> vs[k] == ProcessingEntry(items[k], start + k)
    decreases |items|
  {
    if items == [] then [] else [ProcessingEntry(items[0], start)] + RenderProcessingFrom(items[1..], start + 1)
  }

  function RenderProcessing(items: seq<ProcessingItem>): seq<ProcessingView> {
    RenderProcessingFrom(items, 0)
  }

  /**
   * frontend/app/page.tsx:112-116,126,133: each row shows the percentage the
   * bar is filled to: its text is a number followed by `%`, and that number
   * reads back as the bar's value, which is the item's.
   */
  lemma PercentAgreesWithBar(items: seq<ProcessingItem>)
    ensures |RenderProcessing(items)| == |items|
    ensures forall i :: 0 <= i < |items| ==>
      var v := RenderProcessing(items)[i];
      var t := v.percentText;
      && v.name == items[i].name
      && v.barValue == items[i].value
      && |t| > 1 && t[|t| - 1] == '%'
      && ParseInt(t[..|t| - 1]) == Some(v.barValue)
  {
  }

  /** The dashboard's three rows each show the percentage their bar is filled to. */
  lemma ProcessingRowsShowTheirValue()
    ensures |RenderProcessing(ProcessingItems)| == 3
    ensures forall i :: 0 <= i < 3 ==>
      var t := RenderProcessing(ProcessingItems)[i].percentText;
      && RenderProcessing(ProcessingItems)[i].barValue == ProcessingItems[i].value
      && |t| > 1 && t[|t| - 1] == '%'
      && ParseInt(t[..|t| - 1]) == Some(ProcessingItems[i].value)
  {
    PercentAgreesWithBar(ProcessingItems);
  }

  /** The literal values are percentages. */
  lemma ProcessingValuesArePercentages()
    ensures forall i :: 0 <= i < |ProcessingItems| ==> 0 <= ProcessingItems[i].value <= 100
  {
  }
}
