/**
 * Role-based filtering of the side-navigation menu (menu/index.tsx).
 * Only top-level items are examined; a kept item keeps its whole subtree.
 */
module Menu {
  import opened Wrappers
  import opened Authority

  datatype Target = Blank | Self

  /** A menu node: `labels` (the source's `label`, a reserved word here) maps a language code to the text shown. */
  datatype MenuItem = MenuItem(
    id: Option<string>,
    labels: map<string, string>,
    path: Option<string>,
    target: Option<Target>,
    children: Option<seq<MenuItem>>)

  /** JavaScript truthiness of an optional string: present and non-empty. */
  predicate Truthy(id: Option<string>)
  {
    id.Some? && id.value != ""
  }

  /**
   * The `switch (role)` inside `items.filter`: whether an item is kept for `role`.
   * Only the five named roles see anything, only an administrator sees `settings`,
   * and id-less items are seen by every role that filters by exclusion.
   */
  function Keeps(role: Option<string>, item: MenuItem): (kept: bool)
    ensures kept ==> role.Some? && role.value in {ADMINISTRATOR, SERVICE_MANAGER, CUSTOMER_SUPPORT_AGENT, CHATBOT_TRAINER, ANALYST}
    ensures item.id == Some("settings") ==> (kept <==> role == Some(ADMINISTRATOR))
    ensures item.id == None ==>
      (kept <==> role.Some? && role.value in {SERVICE_MANAGER, CUSTOMER_SUPPORT_AGENT, CHATBOT_TRAINER})
  {
    match role
    case None => false
    case Some(r) =>
      if r == ADMINISTRATOR then Truthy(item.id)
      else if r == SERVICE_MANAGER then item.id != Some("settings") && item.id != Some("training")
      else if r == CUSTOMER_SUPPORT_AGENT then item.id != Some("settings") && item.id != Some("analytics")
      else if r == CHATBOT_TRAINER then item.id != Some("settings") && item.id != Some("conversations")
      else if r == ANALYST then item.id == Some("analytics")
      else false
  }

  /** `items.filter(...)` for a fixed role. */
  function FilterByRole(items: seq<MenuItem>, role: Option<string>): (r: seq<MenuItem>)
    ensures |r| <= |items|
    ensures forall x :: x in r ==> Keeps(role, x)
  {
    if items == [] then []
    else if Keeps(role, items[0]) then [items[0]] + FilterByRole(items[1..], role)
    else FilterByRole(items[1..], role)
  }

  /** The filter as the query callback runs it: the rule is chosen by `authorities[0]`. */
  function FilterMenu(items: seq<MenuItem>, authorities: seq<string>): (r: seq<MenuItem>)
    ensures |r| <= |items|
    ensures |authorities| > 0 ==> forall x :: x in r ==> Keeps(Some(authorities[0]), x)
  {
    FilterByRole(items, FirstAuthority(authorities))
  }

  /** The menu the query callback sets: an empty `items` prop is replaced by `defaults`. */
  function VisibleMenu(items: seq<MenuItem>, defaults: seq<MenuItem>, authorities: seq<string>): (r: seq<MenuItem>)
    ensures items == [] ==> r == FilterMenu(defaults, authorities)
    ensures items != [] ==> r == FilterMenu(items, authorities)
  {
    FilterMenu(if |items| == 0 then defaults else items, authorities)
  }

  /** `a` is `b` with some elements dropped and the rest in their original order. */
  predicate IsSubsequence(a: seq<MenuItem>, b: seq<MenuItem>)
  {
    if b == [] then a == []
    else (a != [] && a[0] == b[0] && IsSubsequence(a[1..], b[1..])) || IsSubsequence(a, b[1..])
  }

  /** The filtered menu keeps the input's order and its items unchanged, children included. */
  lemma {:induction false} FilterIsSubsequence(items: seq<MenuItem>, role: Option<string>)
    ensures IsSubsequence(FilterByRole(items, role), items)
  {
    if items != [] {
      FilterIsSubsequence(items[1..], role);
    }
  }

  /** An item is in the result exactly when it is in the input and its role rule keeps it. */
  lemma {:induction false} FilterMembership(items: seq<MenuItem>, role: Option<string>, x: MenuItem)
    ensures x in FilterByRole(items, role) <==> x in items && Keeps(role, x)
  {
    if items != [] {
      FilterMembership(items[1..], role, x);
      assert items == [items[0]] + items[1..];
    }
  }

  /** How many copies of `x` the filter keeps, defined without the filter. */
  function KeptCount(items: seq<MenuItem>, role: Option<string>, x: MenuItem): nat
  {
    if Keeps(role, x) then multiset(items)[x] else 0
  }

  /** The filter keeps every copy of a kept item and no copy of a dropped one. */
  lemma {:induction false} FilterMultiplicity(items: seq<MenuItem>, role: Option<string>, x: MenuItem)
    ensures multiset(FilterByRole(items, role))[x] == KeptCount(items, role, x)
  {
    if items != [] {
      FilterMultiplicity(items[1..], role, x);
      assert items == [items[0]] + items[1..];
    }
  }

  /** Filtering a list whose every item is kept changes nothing. */
  lemma {:induction false} FilterKeepsAllKept(items: seq<MenuItem>, role: Option<string>)
    requires forall x :: x in items ==> Keeps(role, x)
    ensures FilterByRole(items, role) == items
  {
    if items != [] {
      FilterKeepsAllKept(items[1..], role);
    }
  }

  /** Filtering twice with the same authorities is filtering once. */
  lemma FilterIdempotent(items: seq<MenuItem>, authorities: seq<string>)
    ensures FilterMenu(FilterMenu(items, authorities), authorities) == FilterMenu(items, authorities)
  {
    FilterKeepsAllKept(FilterMenu(items, authorities), FirstAuthority(authorities));
  }

  /** Roles with no keeping rule (none, unauthenticated, unknown) keep nothing. */
  lemma {:induction false} NoRuleKeepsNothing(items: seq<MenuItem>, role: Option<string>)
    requires role.None? || role.value !in {ADMINISTRATOR, SERVICE_MANAGER, CUSTOMER_SUPPORT_AGENT, CHATBOT_TRAINER, ANALYST}
    ensures FilterByRole(items, role) == []
  {
    if items != [] {
      NoRuleKeepsNothing(items[1..], role);
    }
  }

  /** Only the first authority selects the rule; later ones are ignored. */
  lemma OnlyFirstAuthorityMatters(items: seq<MenuItem>, first: string, rest1: seq<string>, rest2: seq<string>)
    ensures FilterMenu(items, [first] + rest1) == FilterMenu(items, [first] + rest2)
    ensures FilterMenu(items, [first] + rest1) == FilterMenu(items, [first])
  {
  }

  lemma AdministratorKeepsItemsWithId(items: seq<MenuItem>, rest: seq<string>)
    ensures forall x :: x in FilterMenu(items, [ADMINISTRATOR] + rest) <==> x in items && Truthy(x.id)
  {
    forall x ensures x in FilterMenu(items, [ADMINISTRATOR] + rest) <==> x in items && Truthy(x.id) {
      FilterMembership(items, Some(ADMINISTRATOR), x);
    }
  }

  lemma ServiceManagerDropsSettingsAndTraining(items: seq<MenuItem>, rest: seq<string>)
    ensures forall x :: x in FilterMenu(items, [SERVICE_MANAGER] + rest) <==>
      x in items && x.id != Some("settings") && x.id != Some("training")
  {
    forall x ensures x in FilterMenu(items, [SERVICE_MANAGER] + rest) <==>
      x in items && x.id != Some("settings") && x.id != Some("training")
    {
      FilterMembership(items, Some(SERVICE_MANAGER), x);
    }
  }

  lemma CustomerSupportAgentDropsSettingsAndAnalytics(items: seq<MenuItem>, rest: seq<string>)
    ensures forall x :: x in FilterMenu(items, [CUSTOMER_SUPPORT_AGENT] + rest) <==>
      x in items && x.id != Some("settings") && x.id != Some("analytics")
  {
    forall x ensures x in FilterMenu(items, [CUSTOMER_SUPPORT_AGENT] + rest) <==>
      x in items && x.id != Some("settings") && x.id != Some("analytics")
    {
      FilterMembership(items, Some(CUSTOMER_SUPPORT_AGENT), x);
    }
  }

  lemma ChatbotTrainerDropsSettingsAndConversations(items: seq<MenuItem>, rest: seq<string>)
    ensures forall x :: x in FilterMenu(items, [CHATBOT_TRAINER] + rest) <==>
      x in items && x.id != Some("settings") && x.id != Some("conversations")
  {
    forall x ensures x in FilterMenu(items, [CHATBOT_TRAINER] + rest) <==>
      x in items && x.id != Some("settings") && x.id != Some("conversations")
    {
      FilterMembership(items, Some(CHATBOT_TRAINER), x);
    }
  }

  lemma AnalystKeepsOnlyAnalytics(items: seq<MenuItem>, rest: seq<string>)
    ensures forall x :: x in FilterMenu(items, [ANALYST] + rest) <==> x in items && x.id == Some("analytics")
  {
    forall x ensures x in FilterMenu(items, [ANALYST] + rest) <==> x in items && x.id == Some("analytics") {
      FilterMembership(items, Some(ANALYST), x);
    }
  }

  /** Unauthenticated viewers, and any role the switch does not name, see no menu. */
  lemma UnmappedRoleSeesNothing(items: seq<MenuItem>, role: string, rest: seq<string>)
    requires role !in {ADMINISTRATOR, SERVICE_MANAGER, CUSTOMER_SUPPORT_AGENT, CHATBOT_TRAINER, ANALYST}
    ensures FilterMenu(items, [role] + rest) == []
  {
    NoRuleKeepsNothing(items, Some(role));
  }

  /** A viewer with no authorities at all sees no menu: the switch falls to `default`. */
  lemma NoAuthorityNoMenu(items: seq<MenuItem>)
    ensures FilterMenu(items, []) == []
  {
    NoRuleKeepsNothing(items, None);
  }

  function Item(id: string): MenuItem
  {
    MenuItem(Some(id), map[], None, None, None)
  }

  /** A service manager's menu out of conversations, training, analytics and settings. */
  lemma ServiceManagerScenario()
    ensures FilterMenu([Item("conversations"), Item("training"), Item("analytics"), Item("settings")], [SERVICE_MANAGER])
         == [Item("conversations"), Item("analytics")]
  {
  }
}
