/** One organization's card (src/components/OrganizationCard.tsx): the
    status badge and its label, the contact rows, and the link to the
    organization's page. */
module OrganizationCard {
  import opened Wrappers
  import opened Text
  import opened Models
  import opened Ui

  /** `getBadgeVariant`, a `switch` over the status string. */
  function BadgeFor(status: string): (v: BadgeVariant)
    ensures status == "active" ==> v == Success
    ensures status == "pending" ==> v == Warning
    ensures status == "suspended" ==> v == Destructive
    ensures status !in {"active", "pending", "suspended"} ==> v == Secondary
  {
    if status == "active" then Success
    else if status == "pending" then Warning
    else if status == "suspended" then Destructive
    else Secondary
  }

  /** Every status an organization can have gets a coloured badge, each its own. */
  lemma StatusesHaveDistinctBadges(a: OrgStatus, b: OrgStatus)
    ensures BadgeFor(a.Name()) != Secondary
    ensures a != b ==> BadgeFor(a.Name()) != BadgeFor(b.Name())
  {
  }

  /** The badge text: the status with its first character uppercased. */
  function StatusLabel(status: string): (r: string)
    ensures |r| == |status|
    ensures |status| > 0 ==> r[0] == UpperChar(status[0]) && r[1..] == status[1..]
  {
    Capitalize(status)
  }

  lemma StatusLabels()
    ensures StatusLabel(Active.Name()) == "Active"
    ensures StatusLabel(Pending.Name()) == "Pending"
    ensures StatusLabel(Suspended.Name()) == "Suspended"
  {
  }

  /** `s` starts with `prefix`, ignoring ASCII case (the regular expression's `i` flag). */
  predicate StartsWithIgnoringCase(s: string, prefix: string) {
    |prefix| <= |s| && ToLower(s[..|prefix|]) == prefix
  }

  /** The length of the leading match of `^https?:\/\/` under the `i` flag,
      0 when there is none. */
  function SchemeLength(s: string): (n: nat)
    ensures n in {0, 7, 8}
    ensures n == 8 <==> StartsWithIgnoringCase(s, "https://")
    ensures n == 7 <==> StartsWithIgnoringCase(s, "http://")
    ensures n == 0 <==> !StartsWithIgnoringCase(s, "https://") && !StartsWithIgnoringCase(s, "http://")
  {
    if StartsWithIgnoringCase(s, "https://") then
      assert !StartsWithIgnoringCase(s, "http://") by {
        if |s| >= 7 { assert ToLower(s[..7])[4] == ToLower(s[..8])[4]; }
      }
      8
    else if StartsWithIgnoringCase(s, "http://") then 7
    else 0
  }

  /** `website.replace(/^https?:\/\//i, '')`: the text of the website link. */
  function StripScheme(website: string): (r: string)
    ensures |r| <= |website| && r == website[|website| - |r|..]
    ensures |website| - |r| == SchemeLength(website)
  {
    website[SchemeLength(website)..]
  }

  /** One scheme is removed however it is capitalised, and only one: a second
      `http://` behind the first stays. */
  lemma StripSchemeRemovesOne(scheme: string, rest: string)
    requires ToLower(scheme) in {"http://", "https://"}
    ensures StripScheme(scheme + rest) == rest
  {
    assert (scheme + rest)[..|scheme|] == scheme;
  }

  /** A website without a scheme is shown as it is. */
  lemma NoSchemeKept(website: string)
    requires !StartsWithIgnoringCase(website, "http://") && !StartsWithIgnoringCase(website, "https://")
    ensures StripScheme(website) == website
  {
  }

  lemma StripSchemeExamples()
    ensures StripScheme("HTTPS://acme.example") == "acme.example"
    ensures StripScheme("www.acme.example") == "www.acme.example"
  {
    var lower := ToLower("HTTPS://");
    assert lower[0] == 'h' && lower[1] == 't' && lower[2] == 't' && lower[3] == 'p' && lower[4] == 's';
    assert lower == "https://";
    StripSchemeRemovesOne("HTTPS://", "acme.example");
    assert "HTTPS://acme.example" == "HTTPS://" + "acme.example";
    NoSchemeKept("www.acme.example");
  }

  const LinkPrefix := "/organizations/"

  /** The link of the View Details button. */
  function DetailsLink(id: string): (r: string)
    ensures |r| == |LinkPrefix| + |id|
    ensures r[..|LinkPrefix|] == LinkPrefix && r[|LinkPrefix|..] == id
  {
    LinkPrefix + id
  }

  /** Different organizations link to different pages. */
  lemma DetailsLinkInjective(a: string, b: string)
    requires DetailsLink(a) == DetailsLink(b)
    ensures a == b
  {
    assert a == DetailsLink(a)[|LinkPrefix|..];
  }

  /** The credit-limit row as the card writes it, `{creditLimit && <row/>}`:
      a zero limit prints a stray "0". */
  lemma ZeroCreditLimitPrintsZero(org: Organization)
    requires org.creditLimit == Some(0.0)
    ensures AmountRowAsWritten(org.creditLimit) == StrayZero
    ensures CardOf(org).creditLimit.None?
  {
  }

  datatype WebsiteRow = WebsiteRow(href: string, text: string)

  datatype Card = Card(title: string, badge: BadgeVariant, statusText: string, code: string,
                       website: Option<WebsiteRow>, phone: Option<string>,
                       creditLimit: Option<real>, terms: Option<string>, link: string)

  /** The card, with the credit-limit row hidden for a zero limit. */
  function CardOf(org: Organization): (c: Card)
    ensures c.title == org.name && c.code == org.code
    ensures c.badge == BadgeFor(org.status.Name()) && c.statusText == StatusLabel(org.status.Name())
    ensures c.website.Some? <==> Truthy(org.website)
    ensures c.website.Some? ==> c.website.value == WebsiteRow(org.website.value, StripScheme(org.website.value))
    ensures c.phone.Some? <==> Truthy(org.phoneNumber)
    ensures c.phone.Some? ==> c.phone == org.phoneNumber
    ensures c.creditLimit == AmountRow(org.creditLimit)
    ensures c.terms.Some? <==> Truthy(org.paymentTerms)
    ensures c.terms.Some? ==> c.terms == org.paymentTerms
    ensures c.link == DetailsLink(org.id)
  {
    var website := if Truthy(org.website) then Some(WebsiteRow(org.website.value, StripScheme(org.website.value)))
                   else None;
    Card(org.name, BadgeFor(org.status.Name()), StatusLabel(org.status.Name()), org.code,
         website,
         if Truthy(org.phoneNumber) then org.phoneNumber else None,
         AmountRow(org.creditLimit),
         if Truthy(org.paymentTerms) then org.paymentTerms else None,
         DetailsLink(org.id))
  }
}
