/**
 * The claims list (`ClaimsPage`, frontend/app/claims/page.tsx): a constant
 * array of claims drawn twice, as a desktop table and as mobile cards. Each
 * entry shows a status badge and links to the claim's detail route.
 */
module ClaimsList {
  import opened Wrappers

  datatype Claim = Claim(id: string, kind: string, status: string, amount: string, date: string, claimant: string)

  /** The mock `claims` array. */
  const Claims: seq<Claim> := [
    Claim("CL-2023-0042", "Auto Insurance", "Approved", "$1,250.00", "2023-06-15", "John Smith"),
    Claim("CL-2023-0041", "Home Insurance", "Pending", "$3,750.00", "2023-06-14", "Sarah Johnson"),
    Claim("CL-2023-0040", "Health Insurance", "Rejected", "$850.00", "2023-06-12", "Michael Brown"),
    Claim("CL-2023-0039", "Auto Insurance", "Approved", "$2,100.00", "2023-06-10", "Emily Davis"),
    Claim("CL-2023-0038", "Life Insurance", "Pending", "$10,000.00", "2023-06-08", "Robert Wilson"),
    Claim("CL-2023-0037", "Home Insurance", "Approved", "$5,200.00", "2023-06-05", "Jennifer Lee"),
    Claim("CL-2023-0036", "Health Insurance", "Pending", "$1,800.00", "2023-06-03", "David Miller"),
    Claim("CL-2023-0035", "Auto Insurance", "Rejected", "$3,400.00", "2023-06-01", "Lisa Anderson")
  ]

  /** The badge colours of a status; the table cell and the mobile card write the same ternary. */
  function BadgeClass(status: string): (c: string)
    ensures c == "bg-green-100 text-green-800" <==> status == "Approved"
    ensures c == "bg-yellow-100 text-yellow-800" <==> status == "Pending"
    ensures c == "bg-red-100 text-red-800" <==> status != "Approved" && status != "Pending"
  {
    if status == "Approved" then "bg-green-100 text-green-800"
    else if status == "Pending" then "bg-yellow-100 text-yellow-800"
    else "bg-red-100 text-red-800"
  }

  /** The three tones a status can take; everything that is not approved or pending is red. */
  datatype Tone = Green | Yellow | Red

  function ToneOf(status: string): (t: Tone)
    ensures t == Green <==> status == "Approved"
    ensures t == Yellow <==> status == "Pending"
    ensures t == Red <==> status != "Approved" && status != "Pending"
  {
    if status == "Approved" then Green else if status == "Pending" then Yellow else Red
  }

  function ToneName(t: Tone): string {
    match t
    case Green => "green"
    case Yellow => "yellow"
    case Red => "red"
  }

  /** The badge is the tone's background-100 / text-800 pair. */
  lemma BadgeFollowsTone(status: string)
    ensures BadgeClass(status) == "bg-" + ToneName(ToneOf(status)) + "-100 text-" + ToneName(ToneOf(status)) + "-800"
  {
    match ToneOf(status)
    case Green =>
      assert "bg-" + "green" + "-100 text-" + "green" + "-800" == "bg-green-100 text-green-800";
    case Yellow =>
      assert "bg-" + "yellow" + "-100 text-" + "yellow" + "-800" == "bg-yellow-100 text-yellow-800";
    case Red =>
      assert "bg-" + "red" + "-100 text-" + "red" + "-800" == "bg-red-100 text-red-800";
  }

  /** claims/page.tsx:137-141: the three cases, and unknown strings fall through to red. */
  lemma BadgeCases(status: string)
    ensures status == "Approved" ==> BadgeClass(status) == "bg-green-100 text-green-800"
    ensures status == "Pending" ==> BadgeClass(status) == "bg-yellow-100 text-yellow-800"
    ensures status != "Approved" && status != "Pending" ==> BadgeClass(status) == "bg-red-100 text-red-800"
  {
  }

  // ---------------------------------------------------------------------------
  // Links to a claim's detail page

  const DetailPrefix := "/claims/"

  /** `` `/claims/${claim.id}` ``: the link carries the id losslessly. */
  function DetailHref(id: string): (h: string)
    ensures |h| == |DetailPrefix| + |id|
    ensures IdOfDetailHref(h) == Some(id)
  {
    assert (DetailPrefix + id)[..|DetailPrefix|] == DetailPrefix;
    assert (DetailPrefix + id)[|DetailPrefix|..] == id;
    DetailPrefix + id
  }

  /** The string inverse of `DetailHref`: the text after the `/claims/` prefix. */
  function IdOfDetailHref(href: string): (r: Option<string>)
    ensures r.Some? ==> |DetailPrefix| <= |href| && href[..|DetailPrefix|] == DetailPrefix
  {
    if |DetailPrefix| <= |href| && href[..|DetailPrefix|] == DetailPrefix then Some(href[|DetailPrefix|..]) else None
  }

  /** Distinct claims link to distinct places. */
  lemma DetailHrefInjective(a: string, b: string)
    requires DetailHref(a) == DetailHref(b)
    ensures a == b
  {
    assert IdOfDetailHref(DetailHref(a)) == Some(a);
    assert IdOfDetailHref(DetailHref(b)) == Some(b);
  }

  // ---------------------------------------------------------------------------
  // The two layouts

  datatype RowView = RowView(key: string, cells: seq<string>, badge: string, href: string)

  datatype CardView = CardView(key: string, title: string, badge: string, details: seq<string>, href: string)

  /** `claims.map(...)` in the desktop table. */
  function RenderTable(claims: seq<Claim>): (rows: seq<RowView>)
    ensures |rows| == |claims|
    ensures forall i :: 0 <= i < |claims| ==>
      rows[i] == RowView(claims[i].id,
        [claims[i].id, claims[i].claimant, claims[i].kind, claims[i].amount, claims[i].date, claims[i].status],
        BadgeClass(claims[i].status), DetailHref(claims[i].id))
    decreases |claims|
  {
    if claims == [] then []
    else
      var c := claims[0];
      [RowView(c.id, [c.id, c.claimant, c.kind, c.amount, c.date, c.status], BadgeClass(c.status), DetailHref(c.id))]
        + RenderTable(claims[1..])
  }

  /** `claims.map(...)` in the mobile cards. */
  function RenderCards(claims: seq<Claim>): (cards: seq<CardView>)
    ensures |cards| == |claims|
    ensures forall i :: 0 <= i < |claims| ==>
      cards[i] == CardView(claims[i].id, claims[i].id, BadgeClass(claims[i].status),
        [claims[i].claimant, claims[i].kind, claims[i].amount, claims[i].date], DetailHref(claims[i].id))
    decreases |claims|
  {
    if claims == [] then []
    else
      var c := claims[0];
      [CardView(c.id, c.id, BadgeClass(c.status), [c.claimant, c.kind, c.amount, c.date], DetailHref(c.id))]
        + RenderCards(claims[1..])
  }

  /** claims/page.tsx:47-56: the mock ids are pairwise distinct, so they are valid React keys. */
  lemma ClaimIdsDistinct()
    ensures forall i, j :: 0 <= i < j < |Claims| ==> Claims[i].id != Claims[j].id
  {
  }

  /**
   * claims/page.tsx:121-164: the table and the cards draw the same claims,
   * once each and in array order, with the same badge and link, under
   * distinct keys.
   */
  lemma LayoutsAgree(claims: seq<Claim>)
    requires forall i, j :: 0 <= i < j < |claims| ==> claims[i].id != claims[j].id
    ensures |RenderTable(claims)| == |RenderCards(claims)| == |claims|
    ensures forall i :: 0 <= i < |claims| ==>
      && RenderTable(claims)[i].key == RenderCards(claims)[i].key == claims[i].id
      && RenderTable(claims)[i].badge == RenderCards(claims)[i].badge
      && RenderTable(claims)[i].href == RenderCards(claims)[i].href == "/claims/" + claims[i].id
    ensures forall i, j :: 0 <= i < j < |claims| ==>
      RenderTable(claims)[i].key != RenderTable(claims)[j].key
      && RenderCards(claims)[i].href != RenderCards(claims)[j].href
  {
    forall i, j | 0 <= i < j < |claims| ensures RenderCards(claims)[i].href != RenderCards(claims)[j].href {
      if RenderCards(claims)[i].href == RenderCards(claims)[j].href {
        DetailHrefInjective(claims[i].id, claims[j].id);
      }
    }
  }

  /** The mock list renders eight rows and eight cards. */
  lemma MockListRendersEight()
    ensures |RenderTable(Claims)| == 8 && |RenderCards(Claims)| == 8
  {
  }
}
