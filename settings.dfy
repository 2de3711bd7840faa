/** The settings screen: the profile form, the admin-only school
    configuration form with its field-by-field edits, the role-dependent
    navigation list, and the shared "saving" flag. */
module Settings {
  import opened Records

  // ----- Field edits of the school configuration -----

  /** `{...config, name: v}` */
  function WithName(c: SchoolConfig, v: string): (r: SchoolConfig)
    ensures r.name == v && r.rates == c.rates
  {
    c.(name := v)
  }

  /** `{...config, rates: {...config.rates, perSession: v}}` */
  function WithPerSession(c: SchoolConfig, v: int): (r: SchoolConfig)
    ensures r.rates.perSession == v
    ensures r.name == c.name && r.rates.perPage == c.rates.perPage && r.rates.packagePrice == c.rates.packagePrice
  {
    c.(rates := c.rates.(perSession := v))
  }

  /** `{...config, rates: {...config.rates, perPage: v}}` */
  function WithPerPage(c: SchoolConfig, v: int): (r: SchoolConfig)
    ensures r.rates.perPage == v
    ensures r.name == c.name && r.rates.perSession == c.rates.perSession && r.rates.packagePrice == c.rates.packagePrice
  {
    c.(rates := c.rates.(perPage := v))
  }

  /** `{...config, rates: {...config.rates, packagePrice: v}}` */
  function WithPackagePrice(c: SchoolConfig, v: int): (r: SchoolConfig)
    ensures r.rates.packagePrice == v
    ensures r.name == c.name && r.rates.perSession == c.rates.perSession && r.rates.perPage == c.rates.perPage
  {
    c.(rates := c.rates.(packagePrice := v))
  }

  /** Editing a field with the value it already has changes nothing, and a
      later edit of the same field overrides an earlier one. */
  lemma EditsOverwrite(c: SchoolConfig, n: string, a: int, b: int)
    ensures WithName(c, c.name) == c && WithName(WithName(c, n), c.name) == c
    ensures WithPerSession(c, c.rates.perSession) == c && WithPerSession(WithPerSession(c, a), b) == WithPerSession(c, b)
    ensures WithPerPage(c, c.rates.perPage) == c && WithPerPage(WithPerPage(c, a), b) == WithPerPage(c, b)
    ensures WithPackagePrice(c, c.rates.packagePrice) == c && WithPackagePrice(WithPackagePrice(c, a), b) == WithPackagePrice(c, b)
  {
  }

  /** Edits of different fields commute: each touches its own field only. */
  lemma EditsCommute(c: SchoolConfig, n: string, a: int, b: int, d: int)
    ensures WithName(WithPerSession(c, a), n) == WithPerSession(WithName(c, n), a)
    ensures WithPerSession(WithPerPage(c, b), a) == WithPerPage(WithPerSession(c, a), b)
    ensures WithPerPage(WithPackagePrice(c, d), b) == WithPackagePrice(WithPerPage(c, b), d)
    ensures WithPerSession(WithPackagePrice(c, d), a) == WithPackagePrice(WithPerSession(c, a), d)
  {
  }

  // ----- What the screen shows to each role -----

  /** What `filter(Boolean)` keeps of one entry: nothing for `null` or
      the falsy empty string, the label itself otherwise. */
  function Kept(o: Option<string>): seq<string> {
    match o
    case Some(x) => if x != "" then [x] else []
    case None => []
  }

  /** The labels of the optional navigation entries, falsy entries
      dropped: `[...].filter(Boolean)`. */
  function Present(xs: seq<Option<string>>): (r: seq<string>)
    ensures |r| <= |xs|
  {
    if xs == [] then []
    else Kept(xs[0]) + Present(xs[1..])
  }

  /** A label is kept iff it is present and not empty. */
  lemma {:induction false} PresentKeepsTruthy(xs: seq<Option<string>>)
    ensures forall x :: x in Present(xs) <==> x != "" && Some(x) in xs
  {
    if xs != [] {
      PresentKeepsTruthy(xs[1..]);
      assert xs == [xs[0]] + xs[1..];
    }
  }

  /** Four entries are kept one by one, in order. */
  lemma PresentOfFour(a: Option<string>, b: Option<string>, c: Option<string>, d: Option<string>)
    ensures Present([a, b, c, d]) == Kept(a) + Kept(b) + Kept(c) + Kept(d)
  {
    assert [d][1..] == [];
    assert Present([d]) == Kept(d);
    assert [c, d][1..] == [d];
    assert Present([c, d]) == Kept(c) + Kept(d);
    assert [b, c, d][1..] == [c, d];
    assert Present([b, c, d]) == Kept(b) + (Kept(c) + Kept(d));
    assert [a, b, c, d][1..] == [b, c, d];
    assert Present([a, b, c, d]) == Kept(a) + (Kept(b) + (Kept(c) + Kept(d)));
  }

  const BaseNavItems := ["Profil Peribadi", "Keselamatan", "Notifikasi"]
  const SchoolNavItem := "Konfigurasi Madrasah"

  /** The side navigation: the three base entries, followed by the school
      configuration entry for an admin only. */
  function NavItems(role: Role): (r: seq<string>)
    ensures |r| >= 3 && r[..3] == BaseNavItems
    ensures role == Admin ==> r == BaseNavItems + [SchoolNavItem]
    ensures role != Admin ==> r == BaseNavItems
  {
    var last := if role == Admin then Some(SchoolNavItem) else None;
    var a, b, c := Some(BaseNavItems[0]), Some(BaseNavItems[1]), Some(BaseNavItems[2]);
    PresentOfFour(a, b, c, last);
    assert |BaseNavItems[0]| > 0 && |BaseNavItems[1]| > 0 && |BaseNavItems[2]| > 0 && |SchoolNavItem| > 0;
    assert Kept(a) == [BaseNavItems[0]] && Kept(b) == [BaseNavItems[1]] && Kept(c) == [BaseNavItems[2]];
    assert [BaseNavItems[0]] + [BaseNavItems[1]] + [BaseNavItems[2]] == BaseNavItems;
    Present([a, b, c, last])
  }

  datatype Section = ProfileSection | SchoolConfigSection | NotificationSection | SecuritySection

  /** The form cards, in order; the school configuration card only for an admin. */
  function Sections(role: Role): (r: seq<Section>)
    ensures SchoolConfigSection in r <==> role == Admin
    ensures |r| >= 3 && r[0] == ProfileSection && r[|r| - 2..] == [NotificationSection, SecuritySection]
  {
    [ProfileSection] + (if role == Admin then [SchoolConfigSection] else []) + [NotificationSection, SecuritySection]
  }

  // ----- The screen's state -----

  class SettingsState {
    const user: User
    var isLoading: bool
    var name: string
    var email: string
    var schoolConfig: SchoolConfig

    /** The form starts from the user's own name and email and the demo
        school configuration. */
    constructor (user: User, demoConfig: SchoolConfig)
      ensures this.user == user && !isLoading
      ensures name == user.name && email == user.email && schoolConfig == demoConfig
    {
      this.user := user;
      isLoading := false;
      name := user.name;
      email := user.email;
      schoolConfig := demoConfig;
    }

    method SetName(v: string)
      modifies this
      ensures name == v
      ensures email == old(email) && schoolConfig == old(schoolConfig) && isLoading == old(isLoading)
    {
      name := v;
    }

    method SetEmail(v: string)
      modifies this
      ensures email == v
      ensures name == old(name) && schoolConfig == old(schoolConfig) && isLoading == old(isLoading)
    {
      email := v;
    }

    method EditSchoolName(v: string)
      modifies this
      ensures schoolConfig == WithName(old(schoolConfig), v)
      ensures name == old(name) && email == old(email) && isLoading == old(isLoading)
    {
      schoolConfig := WithName(schoolConfig, v);
    }

    method EditPerSession(v: int)
      modifies this
      ensures schoolConfig == WithPerSession(old(schoolConfig), v)
      ensures name == old(name) && email == old(email) && isLoading == old(isLoading)
    {
      schoolConfig := WithPerSession(schoolConfig, v);
    }

    method EditPerPage(v: int)
      modifies this
      ensures schoolConfig == WithPerPage(old(schoolConfig), v)
      ensures name == old(name) && email == old(email) && isLoading == old(isLoading)
    {
      schoolConfig := WithPerPage(schoolConfig, v);
    }

    method EditPackagePrice(v: int)
      modifies this
      ensures schoolConfig == WithPackagePrice(old(schoolConfig), v)
      ensures name == old(name) && email == old(email) && isLoading == old(isLoading)
    {
      schoolConfig := WithPackagePrice(schoolConfig, v);
    }

    /** `handleSaveProfile`: the simulated save starts; nothing is sent. */
    method SaveProfile()
      modifies this
      ensures isLoading
      ensures name == old(name) && email == old(email) && schoolConfig == old(schoolConfig)
    {
      isLoading := true;
    }

    /** `handleSaveSchool`: the simulated save starts; nothing is sent. */
    method SaveSchool()
      modifies this
      ensures isLoading
      ensures name == old(name) && email == old(email) && schoolConfig == old(schoolConfig)
    {
      isLoading := true;
    }

    /** Completion of either simulated save. */
    method CompleteSave()
      modifies this
      ensures !isLoading
      ensures name == old(name) && email == old(email) && schoolConfig == old(schoolConfig)
    {
      isLoading := false;
    }
  }

  /** An admin edits one rate and saves: only that rate differs from the
      demo configuration, and the flag is down again after completion. */
  method EditRateAndSave(admin: User, demo: SchoolConfig, v: int) returns (s: SettingsState)
    requires admin.role == Admin
    ensures fresh(s) && !s.isLoading
    ensures s.schoolConfig.rates.perPage == v
    ensures s.schoolConfig.name == demo.name && s.schoolConfig.rates.perSession == demo.rates.perSession
    ensures s.schoolConfig.rates.packagePrice == demo.rates.packagePrice
  {
    s := new SettingsState(admin, demo);
    assert SchoolConfigSection in Sections(s.user.role);
    s.EditPerPage(v);
    s.SaveSchool();
    assert s.isLoading;
    s.CompleteSave();
  }
}
