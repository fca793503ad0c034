/** Attaching provider accounts to applications (internal/applications/service.go, migrations/000002_applications.up.sql). */
module ProviderLinks {
  import opened Basics
  import opened Text
  import opened Tables
  import opened Validation

  /** A row of application_providers is a link and its is_default. */
  datatype Link = Link(app: AppId, account: AccountId)

  type Links = map<Link, bool>

  predicate IsDefault(links: Links, l: Link) {
    l in links && links[l]
  }

  predicate Attached(links: Links, app: AppId) {
    exists l :: l in links && l.app == app
  }

  /** Whether an attached account becomes, or stays, the default. */
  predicate Choose(links: Links, l: Link, asked: bool) {
    asked || IsDefault(links, l) || !Attached(links, l.app)
  }

  /** ClearDefaultProviderForApplication. */
  function Cleared(links: Links, app: AppId): Links {
    map l | l in links :: links[l] && l.app != app
  }

  /** The rows after one attach call that nothing interrupts. */
  function AttachLink(links: Links, l: Link, asked: bool): Links {
    var make := Choose(links, l, asked);
    (if make then Cleared(links, l.app) else links)[l := make]
  }

  ghost predicate AtMostOne(links: Links, app: AppId) {
    forall a, b :: IsDefault(links, a) && IsDefault(links, b) && a.app == app && b.app == app ==> a == b
  }

  ghost predicate HasDefault(links: Links, app: AppId) {
    exists l :: IsDefault(links, l) && l.app == app
  }

  /** Every application with a provider has exactly one default. */
  ghost predicate OneDefaultEach(links: Links) {
    forall app :: AtMostOne(links, app) && (Attached(links, app) ==> HasDefault(links, app))
  }

  lemma DefaultAfter(links: Links, l: Link, asked: bool, x: Link)
    ensures IsDefault(AttachLink(links, l, asked), x)
            <==> if x == l then Choose(links, l, asked)
                 else IsDefault(links, x) && !(Choose(links, l, asked) && x.app == l.app)
  {
    hide Choose;
  }

  /** An attach call keeps one default each, obeys an explicit request, and leaves other applications alone. */
  lemma AttachKeepsOneDefault(links: Links, l: Link, asked: bool)
    requires OneDefaultEach(links)
    ensures var after := AttachLink(links, l, asked);
            && OneDefaultEach(after)
            && after.Keys == links.Keys + {l}
            && (asked ==> IsDefault(after, l))
            && (!asked && HasDefault(links, l.app) ==> forall x :: IsDefault(after, x) <==> IsDefault(links, x))
            && (!asked && !Attached(links, l.app) ==> IsDefault(after, l))
            && (forall x :: x in links && x.app != l.app ==> after[x] == links[x])
            && forall x :: IsDefault(after, x) && x.app == l.app && x != l ==> IsDefault(links, x)
  {
    hide AttachLink, IsDefault;
    var after := AttachLink(links, l, asked);
    AttachShape(links, l, asked);
    forall x ensures IsDefault(after, x)
                     <==> if x == l then Choose(links, l, asked) else IsDefault(links, x) && !(Choose(links, l, asked) && x.app == l.app) {
      DefaultAfter(links, l, asked, x);
    }
    forall app ensures AtMostOne(after, app) && (Attached(after, app) ==> HasDefault(after, app)) {
      assert AtMostOne(links, app);
      if Attached(after, app) { DefaultRemains(links, l, asked, app); }
    }
    if !asked { UnaskedKeeps(links, l); }
  }

  /** Unasked, a call leaves the application's default where it is, and gives it one if it has no account yet. */
  lemma UnaskedKeeps(links: Links, l: Link)
    ensures !Attached(links, l.app) ==> IsDefault(AttachLink(links, l, false), l)
    ensures HasDefault(links, l.app) && AtMostOne(links, l.app) ==>
              forall x :: IsDefault(AttachLink(links, l, false), x) <==> IsDefault(links, x)
  {
    if HasDefault(links, l.app) && AtMostOne(links, l.app) {
      var d :| IsDefault(links, d) && d.app == l.app;
      assert Attached(links, l.app);
    }
  }

  /** The links of one application. */
  function LinksOf(links: Links, app: AppId): Links {
    map l | l in links && l.app == app :: links[l]
  }

  /** What a call does to its application depends on that application's own links alone. */
  lemma OnlyOwnLinks(a: Links, b: Links, l: Link, asked: bool)
    requires LinksOf(a, l.app) == LinksOf(b, l.app)
    ensures LinksOf(AttachLink(a, l, asked), l.app) == LinksOf(AttachLink(b, l, asked), l.app)
  {
    SameChoice(a, b, l, asked);
    forall x: Link | x.app == l.app
      ensures x in AttachLink(a, l, asked) <==> x in AttachLink(b, l, asked)
      ensures x in AttachLink(a, l, asked) ==> AttachLink(a, l, asked)[x] == AttachLink(b, l, asked)[x]
    {
      SameLink(a, b, x);
    }
    hide Choose;
  }

  lemma SameLink(a: Links, b: Links, x: Link)
    requires LinksOf(a, x.app) == LinksOf(b, x.app)
    ensures x in a <==> x in b
    ensures x in a ==> a[x] == b[x]
  {
    assert x in LinksOf(a, x.app) <==> x in a;
    assert x in LinksOf(b, x.app) <==> x in b;
    if x in a { assert LinksOf(a, x.app)[x] == a[x] && LinksOf(b, x.app)[x] == b[x]; }
  }

  lemma SameChoice(a: Links, b: Links, l: Link, asked: bool)
    requires LinksOf(a, l.app) == LinksOf(b, l.app)
    ensures Choose(a, l, asked) == Choose(b, l, asked)
  {
    SameLink(a, b, l);
    hide LinksOf;
    if Attached(a, l.app) {
      var x :| x in a && x.app == l.app;
      SameLink(a, b, x);
    }
    if Attached(b, l.app) {
      var x :| x in b && x.app == l.app;
      SameLink(a, b, x);
    }
  }

  lemma AttachShape(links: Links, l: Link, asked: bool)
    ensures AttachLink(links, l, asked).Keys == links.Keys + {l}
    ensures forall x :: x in links && x.app != l.app ==> AttachLink(links, l, asked)[x] == links[x]
  {
    hide Choose;
  }

  lemma DefaultRemains(links: Links, l: Link, asked: bool, app: AppId)
    requires OneDefaultEach(links) && Attached(AttachLink(links, l, asked), app)
    ensures HasDefault(AttachLink(links, l, asked), app)
  {
    hide AttachLink, Choose, IsDefault;
    AttachShape(links, l, asked);
    DefaultAfter(links, l, asked, l);
    if app != l.app || !Choose(links, l, asked) {
      assert Attached(links, app) by { NotChosenIsAttached(links, l, asked); }
      var d :| IsDefault(links, d) && d.app == app;
      DefaultAfter(links, l, asked, d);
      NotChosenIsAttached(links, l, asked);
    }
  }

  lemma NotChosenIsAttached(links: Links, l: Link, asked: bool)
    ensures !Choose(links, l, asked) ==> Attached(links, l.app) && !IsDefault(links, l)
  {
  }

  datatype Call = Call(link: Link, asked: bool)

  function AttachAll(calls: seq<Call>): Links {
    if calls == [] then map[]
    else AttachLink(AttachAll(calls[..|calls| - 1]), calls[|calls| - 1].link, calls[|calls| - 1].asked)
  }

  /** Any sequence of uninterrupted attach calls leaves every application with exactly one default. */
  lemma {:induction false} AlwaysOneDefault(calls: seq<Call>)
    ensures OneDefaultEach(AttachAll(calls))
    ensures forall c :: c in calls ==> c.link in AttachAll(calls)
  {
    hide AttachLink, OneDefaultEach;
    if calls == [] {
      EmptyIsDefaulted();
    } else {
      var init, last := calls[..|calls| - 1], calls[|calls| - 1];
      AlwaysOneDefault(init);
      AttachKeepsOneDefault(AttachAll(init), last.link, last.asked);
      assert forall c :: c in calls ==> c in init || c == last;
    }
  }

  lemma EmptyIsDefaulted()
    ensures OneDefaultEach(map[])
  {
  }

  // ---- the call itself ----

  datatype Shop = Shop(provider: string, shopId: string, environment: string)

  datatype AttachInput = AttachInput(shop: Shop, secret: string, isDefault: bool)

  datatype Account = Account(shop: Shop, secret: string)

  datatype AttachError = Invalid | NotFound | DifferentSecret

  function TrimShop(s: Shop): Shop {
    Shop(TrimSpace(s.provider), TrimSpace(s.shopId), TrimSpace(s.environment))
  }

  /** validateProviderInput. */
  predicate InputOk(s: Shop, secret: string) {
    && s.provider == "yookassa"
    && s.shopId != "" && Len(s.shopId) <= 64
    && secret != "" && Len(secret) <= 512
    && (s.environment == "test" || s.environment == "production")
  }

  /** What the table of provider accounts allows: 64 characters, and one of two environments. */
  predicate FitsColumns(s: Shop) {
    s.provider == "yookassa" && 1 <= |s.shopId| <= 64 && s.environment in {"test", "production"}
  }

  /** Accepted input fits its columns; ASCII input is accepted exactly when it does and the secret is not too long. */
  lemma OkFits(s: Shop, secret: string)
    ensures InputOk(s, secret) ==> FitsColumns(s) && 1 <= |secret| <= 512
    ensures Ascii(s.shopId) && Ascii(secret) ==> (InputOk(s, secret) <==> FitsColumns(s) && 1 <= |secret| <= 512)
  {
    AsciiLen(s.shopId);
    AsciiLen(secret);
    hide Len;
  }

  /** Only white space around the three texts is dropped. */
  lemma TrimsEach(s: Shop)
    ensures var t := TrimShop(s);
            TrimmedOf(t.provider, s.provider) && TrimmedOf(t.shopId, s.shopId) && TrimmedOf(t.environment, s.environment)
  {
    hide TrimSpace, TrimmedOf;
    TrimSpaceIs(s.provider);
    TrimSpaceIs(s.shopId);
    TrimSpaceIs(s.environment);
  }

  ghost predicate AccountsOK(accounts: map<AccountId, Account>) {
    && (forall a, b :: a in accounts && b in accounts && accounts[a].shop == accounts[b].shop ==> a == b)
    && (forall a :: a in accounts ==> FitsColumns(accounts[a].shop))
  }

  lemma StoreAccount(accounts: map<AccountId, Account>, row: AccountId, account: Account)
    requires AccountsOK(accounts) && FitsColumns(account.shop)
    requires row in accounts ==> accounts[row] == account
    requires row !in accounts ==> forall a :: a in accounts ==> accounts[a].shop != account.shop
    ensures AccountsOK(accounts[row := account])
  {
    hide FitsColumns;
  }

  datatype Item = Item(account: AccountId, isDefault: bool)

  class Connections {
    var apps: set<AppId>
    var accounts: map<AccountId, Account>
    var links: Links

    /** A shop is connected once and fits its columns, and only stored accounts are attached. */
    ghost predicate Valid()
      reads this
    {
      AccountsOK(accounts) && forall l :: l in links ==> l.account in accounts
    }

    constructor (apps: set<AppId>)
      ensures Valid() && this.apps == apps && accounts == map[] && links == map[]
    {
      this.apps := apps;
      accounts, links := map[], map[];
    }

    /** ListProviderAccountsForApplication, in some order. */
    method ListAttached(app: AppId) returns (items: seq<Item>)
      ensures forall i :: 0 <= i < |items| ==> Link(app, items[i].account) in links
                                               && items[i].isDefault == links[Link(app, items[i].account)]
      ensures forall l :: l in links && l.app == app ==> exists i :: 0 <= i < |items| && items[i].account == l.account
    {
      items := [];
      var rest := set l | l in links && l.app == app;
      while rest != {}
        invariant forall l :: l in rest ==> l in links && l.app == app
        invariant forall i :: 0 <= i < |items| ==> Link(app, items[i].account) in links
                                                   && items[i].isDefault == links[Link(app, items[i].account)]
        invariant forall l :: l in links && l.app == app && l !in rest ==>
                    exists i :: 0 <= i < |items| && items[i].account == l.account
        decreases |rest|
      {
        var l :| l in rest;
        ghost var before := items;
        items := items + [Item(l.account, links[l])];
        rest := rest - {l};
        assert items[|before|].account == l.account;
        assert forall i :: 0 <= i < |before| ==> items[i] == before[i];
      }
    }

    /** The default flag: asked for, kept, or the first provider of the application. */
    method DefaultFlag(l: Link, asked: bool) returns (make: bool)
      ensures make == Choose(links, l, asked)
      ensures make <==> asked || (l in links && links[l]) || forall x :: x in links ==> x.app != l.app
    {
      var existing := ListAttached(l.app);
      var currentlyDefault := false;
      var i := 0;
      while i < |existing|
        invariant 0 <= i <= |existing| && !currentlyDefault
        invariant forall j :: 0 <= j < i ==> existing[j].account != l.account
      {
        if existing[i].account == l.account {
          currentlyDefault := existing[i].isDefault;
          break;
        }
        i := i + 1;
      }
      assert |existing| > 0 ==> Link(l.app, existing[0].account) in links;
      assert currentlyDefault == IsDefault(links, l);
      make := asked || currentlyDefault || |existing| == 0;
    }

    method ClearDefault(app: AppId)
      modifies this`links
      ensures links == Cleared(old(links), app)
    {
      links := map l | l in links :: if l.app == app && links[l] then false else links[l];
    }

    /** Without interruption: the account of the shop is attached, and its rows become those of AttachLink. */
    method AttachProviderAccount(app: AppId, input: AttachInput, id: AccountId) returns (r: Result<Item, AttachError>)
      requires Valid() && id !in accounts
      modifies this
      ensures Valid() && apps == old(apps)
      ensures r == Err(Invalid) <==> !InputOk(TrimShop(input.shop), input.secret)
      ensures r == Err(NotFound) <==> InputOk(TrimShop(input.shop), input.secret) && app !in apps
      ensures r == Err(DifferentSecret) <==>
                && InputOk(TrimShop(input.shop), input.secret) && app in apps
                && exists a :: a in old(accounts) && old(accounts)[a].shop == TrimShop(input.shop)
                               && old(accounts)[a].secret != input.secret
      ensures r.Err? ==> accounts == old(accounts) && links == old(links)
      ensures r.Ok? ==>
                var account := Account(TrimShop(input.shop), input.secret);
                && r.value.account in accounts && accounts[r.value.account] == account
                && accounts == (if r.value.account in old(accounts) then old(accounts) else old(accounts)[id := account])
                && links == AttachLink(old(links), Link(app, r.value.account), input.isDefault)
                && r.value.isDefault == IsDefault(links, Link(app, r.value.account))
    {
      hide TrimShop, InputOk, Choose, Cleared, FitsColumns;
      var shop := TrimShop(input.shop);
      if !InputOk(shop, input.secret) { return Err(Invalid); }
      if app !in apps { return Err(NotFound); }
      OkFits(shop, input.secret);
      var row := id;
      if exists a :: a in accounts && accounts[a].shop == shop {
        row :| row in accounts && accounts[row].shop == shop;
        if accounts[row].secret != input.secret { return Err(DifferentSecret); }
      }
      r := Connect(app, row, shop, input);
    }

    /** The rest of the transaction, once the account row is known. */
    method Connect(app: AppId, row: AccountId, shop: Shop, input: AttachInput) returns (r: Result<Item, AttachError>)
      requires Valid() && FitsColumns(shop)
      requires row in accounts ==> accounts[row] == Account(shop, input.secret)
      requires row !in accounts ==> forall a :: a in accounts ==> accounts[a].shop != shop
      modifies this`accounts, this`links
      ensures Valid()
      ensures accounts == old(accounts)[row := Account(shop, input.secret)]
      ensures links == AttachLink(old(links), Link(app, row), input.isDefault)
      ensures r == Ok(Item(row, IsDefault(links, Link(app, row))))
    {
      hide Choose, FitsColumns, AccountsOK;
      StoreAccount(accounts, row, Account(shop, input.secret));
      var l := Link(app, row);
      var make := DefaultFlag(l, input.isDefault);
      accounts := accounts[row := Account(shop, input.secret)];
      if make {
        ClearDefault(app);
      }
      links := links[l := make];
      r := Ok(Item(row, make));
    }
  }
}
