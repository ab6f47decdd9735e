/**
 * The schema.org structured data emitted for search engines, as JSON
 * values: a member as a `Person`, the team as an `Organization`, the site as
 * a `WebSite`, a breadcrumb trail as a `BreadcrumbList` and a listing page as
 * a `CollectionPage`. A property whose source value is `undefined` is
 * `JUndefined` (JSON serialisation then omits it).
 */
module SeoSchemas {
  import opened Wrappers

  datatype Json =
    | JUndefined
    | JStr(s: string)
    | JNum(n: int)
    | JArr(items: seq<Json>)
    | JObj(fields: seq<(string, Json)>)

  /** The value of the first property with the given key. */
  function Get(j: Json, key: string): Option<Json>
  {
    if !j.JObj? then None else Lookup(j.fields, key)
  }

  function Lookup(fields: seq<(string, Json)>, key: string): Option<Json>
  {
    if fields == [] then None
    else if fields[0].0 == key then Some(fields[0].1)
    else Lookup(fields[1..], key)
  }

  /** The property at index `k` is found when no earlier property has its key. */
  lemma {:induction false} LookupAt(fields: seq<(string, Json)>, k: nat, key: string)
    requires k < |fields| && fields[k].0 == key
    requires forall i :: 0 <= i < k ==> fields[i].0 != key
    ensures Lookup(fields, key) == Some(fields[k].1)
  {
    if k > 0 {
      LookupAt(fields[1..], k - 1, key);
    }
  }

  /** A possibly missing string property. */
  function Str(v: Option<string>): (j: Json)
    ensures v.Some? <==> j.JStr?
    ensures v.Some? ==> j == JStr(v.value)
  {
    if v.Some? then JStr(v.value) else JUndefined
  }

  /** `${v}` of a possibly missing string. */
  function Interpolate(v: Option<string>): string
  {
    if v.Some? then v.value else "undefined"
  }

  const Context := ("@context", JStr("https://schema.org"))
  const SiteName := "Team Portfolio"
  const SiteUrl := "https://example.com"
  const MemberUrlPrefix := "https://example.com/member/"

  datatype Contact = Contact(linkedin: Option<string>, github: Option<string>, email: Option<string>)

  datatype Member = Member(name: Option<string>, role: Option<string>, bio: Option<string>,
                           image: Option<string>, slug: Option<string>, contact: Contact)

  /** `generatePersonSchema`. */
  function PersonSchema(m: Member): Json
  {
    JObj([Context, ("@type", JStr("Person")),
      ("name", Str(m.name)), ("jobTitle", Str(m.role)), ("description", Str(m.bio)), ("image", Str(m.image)),
      ("url", JStr(MemberUrlPrefix + Interpolate(m.slug))),
      ("sameAs", JArr([Str(m.contact.linkedin), Str(m.contact.github)])),
      ("email", Str(m.contact.email)),
      ("worksFor", JObj([("@type", JStr("Organization")), ("name", JStr(SiteName)), ("url", JStr(SiteUrl))]))])
  }

  /**
   * A Person: its name, job title and email are the member's, its page is
   * the member's slug under `/member/` (the text "undefined" without one),
   * `sameAs` lists LinkedIn then GitHub, missing ones included, and it works
   * for the team.
   */
  lemma PersonFields(m: Member)
    ensures Get(PersonSchema(m), "@type") == Some(JStr("Person"))
    ensures Get(PersonSchema(m), "name") == Some(Str(m.name))
    ensures Get(PersonSchema(m), "jobTitle") == Some(Str(m.role))
    ensures Get(PersonSchema(m), "email") == Some(Str(m.contact.email))
    ensures Get(PersonSchema(m), "url") == Some(JStr(MemberUrlPrefix + (if m.slug.Some? then m.slug.value else "undefined")))
    ensures Get(PersonSchema(m), "sameAs") == Some(JArr([Str(m.contact.linkedin), Str(m.contact.github)]))
    ensures Get(PersonSchema(m), "worksFor").Some?
      && Get(Get(PersonSchema(m), "worksFor").value, "name") == Some(JStr(SiteName))
  {
    PersonIdentity(m);
    PersonEmail(m);
    PersonLinks(m);
  }

  /** The type, name and job title of a Person. */
  lemma PersonIdentity(m: Member)
    ensures Get(PersonSchema(m), "@type") == Some(JStr("Person"))
    ensures Get(PersonSchema(m), "name") == Some(Str(m.name))
    ensures Get(PersonSchema(m), "jobTitle") == Some(Str(m.role))
  {
    var f := PersonSchema(m).fields;
    LookupAt(f, 1, "@type");
    LookupAt(f, 2, "name");
    LookupAt(f, 3, "jobTitle");
  }

  /** The email of a Person. */
  lemma PersonEmail(m: Member)
    ensures Get(PersonSchema(m), "email") == Some(Str(m.contact.email))
  {
    LookupAt(PersonSchema(m).fields, 8, "email");
  }

  /** The page, profiles and employer of a Person. */
  lemma PersonLinks(m: Member)
    ensures Get(PersonSchema(m), "url") == Some(JStr(MemberUrlPrefix + (if m.slug.Some? then m.slug.value else "undefined")))
    ensures Get(PersonSchema(m), "sameAs") == Some(JArr([Str(m.contact.linkedin), Str(m.contact.github)]))
    ensures Get(PersonSchema(m), "worksFor").Some?
      && Get(Get(PersonSchema(m), "worksFor").value, "name") == Some(JStr(SiteName))
  {
    var f := PersonSchema(m).fields;
    LookupAt(f, 6, "url");
    LookupAt(f, 7, "sameAs");
    LookupAt(f, 9, "worksFor");
    LookupAt(f[9].1.fields, 1, "name");
  }

  /** Members with different slugs get different page URLs. */
  lemma PersonUrlInjective(m1: Member, m2: Member)
    requires m1.slug.Some? && m2.slug.Some? && m1.slug != m2.slug
    ensures Get(PersonSchema(m1), "url") != Get(PersonSchema(m2), "url")
  {
    PersonFields(m1);
    PersonFields(m2);
    assert m1.slug.value == (MemberUrlPrefix + m1.slug.value)[|MemberUrlPrefix|..];
    assert m2.slug.value == (MemberUrlPrefix + m2.slug.value)[|MemberUrlPrefix|..];
  }

  /** An Organization with the given name, description, URL, logo, contact email and profiles. */
  function Organization(name: string, description: string, url: string, logo: string, email: string,
                        sameAs: seq<Json>): Json
  {
    JObj([Context, ("@type", JStr("Organization")), ("name", JStr(name)),
      ("description", JStr(description)),
      ("url", JStr(url)), ("logo", JStr(logo)),
      ("contactPoint", JObj([("@type", JStr("ContactPoint")), ("contactType", JStr("customer service")),
        ("email", JStr(email))])),
      ("sameAs", JArr(sameAs))])
  }

  const TeamDescription := "A talented team of full-stack developers creating amazing projects"
  const TeamLogo := "https://example.com/icons/icon-512x512.png"
  const TeamEmail := "hello@example.com"
  const TeamProfiles := [JStr("https://github.com/team"), JStr("https://twitter.com/teamportfolio")]

  /** `generateOrganizationSchema`: a constant. */
  function OrganizationSchema(): Json
  {
    Organization(SiteName, TeamDescription, SiteUrl, TeamLogo, TeamEmail, TeamProfiles)
  }

  /** Any Organization carries its type, name, URL and contact email. */
  lemma OrganizationHolds(name: string, description: string, url: string, logo: string, email: string,
                          sameAs: seq<Json>)
    ensures var o := Organization(name, description, url, logo, email, sameAs);
      Get(o, "@type") == Some(JStr("Organization")) && Get(o, "name") == Some(JStr(name))
      && Get(o, "url") == Some(JStr(url)) && Get(o, "contactPoint").Some?
      && Get(Get(o, "contactPoint").value, "email") == Some(JStr(email))
  {
    var f := Organization(name, description, url, logo, email, sameAs).fields;
    LookupAt(f, 1, "@type");
    LookupAt(f, 2, "name");
    LookupAt(f, 4, "url");
    LookupAt(f, 6, "contactPoint");
    LookupAt(f[6].1.fields, 2, "email");
  }

  /** The Organization names the team, the site's URL and a contact email. */
  lemma OrganizationFields()
    ensures Get(OrganizationSchema(), "@type") == Some(JStr("Organization"))
    ensures Get(OrganizationSchema(), "name") == Some(JStr(SiteName))
    ensures Get(OrganizationSchema(), "url") == Some(JStr(SiteUrl))
    ensures Get(OrganizationSchema(), "contactPoint").Some?
      && Get(Get(OrganizationSchema(), "contactPoint").value, "email") == Some(JStr("hello@example.com"))
  {
    OrganizationHolds(SiteName, TeamDescription, SiteUrl, TeamLogo, TeamEmail, TeamProfiles);
  }

  /** A WebSite with the given name, description and URL, offering a search at `target`. */
  function Website(name: string, description: string, url: string, target: string): Json
  {
    JObj([Context, ("@type", JStr("WebSite")), ("name", JStr(name)),
      ("description", JStr(description)),
      ("url", JStr(url)),
      ("potentialAction", JObj([("@type", JStr("SearchAction")),
        ("target", JStr(target)),
        ("query-input", JStr("required name=search_term_string"))]))])
  }

  const SiteDescription := "Portfolio website showcasing our development team and projects"
  const SearchTarget := "https://example.com/search?q={search_term_string}"

  /** `generateWebsiteSchema`: a constant. */
  function WebsiteSchema(): Json
  {
    Website(SiteName, SiteDescription, SiteUrl, SearchTarget)
  }

  /** Any WebSite carries its type, name and URL, and a search action. */
  lemma WebsiteHolds(name: string, description: string, url: string, target: string)
    ensures var w := Website(name, description, url, target);
      Get(w, "@type") == Some(JStr("WebSite")) && Get(w, "name") == Some(JStr(name))
      && Get(w, "url") == Some(JStr(url)) && Get(w, "potentialAction").Some?
      && Get(Get(w, "potentialAction").value, "@type") == Some(JStr("SearchAction"))
  {
    var f := Website(name, description, url, target).fields;
    LookupAt(f, 1, "@type");
    LookupAt(f, 2, "name");
    LookupAt(f, 4, "url");
    LookupAt(f, 5, "potentialAction");
    LookupAt(f[5].1.fields, 0, "@type");
  }

  /** The WebSite names the team and the site's URL, and offers a search action. */
  lemma WebsiteFields()
    ensures Get(WebsiteSchema(), "@type") == Some(JStr("WebSite"))
    ensures Get(WebsiteSchema(), "name") == Some(JStr(SiteName))
    ensures Get(WebsiteSchema(), "url") == Some(JStr(SiteUrl))
    ensures Get(WebsiteSchema(), "potentialAction").Some?
      && Get(Get(WebsiteSchema(), "potentialAction").value, "@type") == Some(JStr("SearchAction"))
  {
    WebsiteHolds(SiteName, SiteDescription, SiteUrl, SearchTarget);
  }

  datatype Crumb = Crumb(name: string, url: string)

  /** One breadcrumb entry at a one-based position. */
  function ListItem(c: Crumb, position: int): Json
  {
    JObj([("@type", JStr("ListItem")), ("position", JNum(position)), ("name", JStr(c.name)), ("item", JStr(c.url))])
  }

  /** An entry shows its position, the crumb's name and the crumb's URL. */
  lemma ListItemFields(c: Crumb, position: int)
    ensures Get(ListItem(c, position), "position") == Some(JNum(position))
    ensures Get(ListItem(c, position), "name") == Some(JStr(c.name))
    ensures Get(ListItem(c, position), "item") == Some(JStr(c.url))
  {
    var f := ListItem(c, position).fields;
    LookupAt(f, 1, "position");
    LookupAt(f, 2, "name");
    LookupAt(f, 3, "item");
  }

  /** `generateBreadcrumbSchema`: the trail's entries in order, numbered from 1. */
  function BreadcrumbSchema(items: seq<Crumb>): Json
  {
    JObj([Context, ("@type", JStr("BreadcrumbList")),
      ("itemListElement", JArr(seq(|items|, i requires 0 <= i < |items| => ListItem(items[i], i + 1))))])
  }

  /** A BreadcrumbList holds one entry per crumb, the i-th at position i + 1. */
  lemma BreadcrumbFields(items: seq<Crumb>)
    ensures Get(BreadcrumbSchema(items), "@type") == Some(JStr("BreadcrumbList"))
    ensures Get(BreadcrumbSchema(items), "itemListElement").Some?
    ensures var list := Get(BreadcrumbSchema(items), "itemListElement").value;
      list.JArr? && |list.items| == |items|
      && forall i :: 0 <= i < |items| ==> list.items[i] == ListItem(items[i], i + 1)
  {
    var f := BreadcrumbSchema(items).fields;
    LookupAt(f, 1, "@type");
    LookupAt(f, 2, "itemListElement");
  }

  /** Reads a trail back from a list of entries, checking that positions count up from `from`. */
  function ReadCrumbs(list: seq<Json>, from: int): Option<seq<Crumb>>
    decreases |list|
  {
    if list == [] then Some([])
    else
      var p := Get(list[0], "position");
      var n := Get(list[0], "name");
      var u := Get(list[0], "item");
      if p == Some(JNum(from)) && n.Some? && n.value.JStr? && u.Some? && u.value.JStr? then
        var rest := ReadCrumbs(list[1..], from + 1);
        if rest.Some? then Some([Crumb(n.value.s, u.value.s)] + rest.value) else None
      else None
  }

  /** The trail can be read back from the schema, each entry at the position it had. */
  lemma {:induction false} BreadcrumbRoundTrip(items: seq<Crumb>, from: int)
    ensures ReadCrumbs(seq(|items|, i requires 0 <= i < |items| => ListItem(items[i], from + i)), from) == Some(items)
  {
    var list := seq(|items|, i requires 0 <= i < |items| => ListItem(items[i], from + i));
    if items != [] {
      var tail := seq(|items| - 1, i requires 0 <= i < |items| - 1 => ListItem(items[1..][i], from + 1 + i));
      assert list[1..] == tail;
      BreadcrumbRoundTrip(items[1..], from + 1);
      ListItemFields(items[0], from);
      assert [items[0]] + items[1..] == items;
    }
  }

  /** The whole breadcrumb schema reads back as the trail it was built from. */
  lemma BreadcrumbReadsBack(items: seq<Crumb>)
    ensures var l := Get(BreadcrumbSchema(items), "itemListElement");
      l.Some? && l.value.JArr? && ReadCrumbs(l.value.items, 1) == Some(items)
  {
    BreadcrumbFields(items);
    var list := Get(BreadcrumbSchema(items), "itemListElement").value.items;
    assert list == seq(|items|, i requires 0 <= i < |items| => ListItem(items[i], 1 + i));
    BreadcrumbRoundTrip(items, 1);
  }

  /** `generateCollectionPageSchema`. */
  function CollectionPageSchema(title: string, description: string, url: string): Json
  {
    JObj([Context, ("@type", JStr("CollectionPage")), ("name", JStr(title)), ("description", JStr(description)),
      ("url", JStr(url)),
      ("isPartOf", JObj([("@type", JStr("WebSite")), ("name", JStr(SiteName)), ("url", JStr(SiteUrl))]))])
  }

  /** A CollectionPage carries the page's title, description and URL, and is part of the site. */
  lemma CollectionPageFields(title: string, description: string, url: string)
    ensures Get(CollectionPageSchema(title, description, url), "@type") == Some(JStr("CollectionPage"))
    ensures Get(CollectionPageSchema(title, description, url), "name") == Some(JStr(title))
    ensures Get(CollectionPageSchema(title, description, url), "description") == Some(JStr(description))
    ensures Get(CollectionPageSchema(title, description, url), "url") == Some(JStr(url))
    ensures Get(CollectionPageSchema(title, description, url), "isPartOf").Some?
      && Get(Get(CollectionPageSchema(title, description, url), "isPartOf").value, "url") == Some(JStr(SiteUrl))
  {
    var f := CollectionPageSchema(title, description, url).fields;
    LookupAt(f, 1, "@type");
    LookupAt(f, 2, "name");
    LookupAt(f, 3, "description");
    LookupAt(f, 4, "url");
    LookupAt(f, 5, "isPartOf");
    LookupAt(f[5].1.fields, 2, "url");
  }
}
