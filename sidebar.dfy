/**
 * The navigation sidebar of `components/layout/Sidebar.jsx`: the accordion
 * state (at most one submenu open, since `openMenu` is one key or none), the
 * collapse toggle reported to the parent, logout, the menu table, and the class
 * strings of the links.  Class strings are judged by their whitespace-separated
 * tokens, as the browser reads a `class` attribute: as text, "bg-gray-700" sits
 * inside the base class "hover:bg-gray-700" whether the link is active or not.
 */
module Layout {
  import opened Common
  import opened JsValues
  import opened Axios
  import opened AuthContext

  // ---------------------------------------------------------------------------
  // Class tokens

  /** A class name: non-empty, without spaces. */
  predicate IsWord(w: string)
  {
    w != [] && forall i | 0 <= i < |w| :: w[i] != ' '
  }

  /** The length of the leading run of non-space characters. */
  function WordLength(s: string): (n: nat)
    ensures n <= |s| && forall i | 0 <= i < n :: s[i] != ' '
    ensures n < |s| ==> s[n] == ' '
  {
    if s != [] && s[0] != ' ' then 1 + WordLength(s[1..]) else 0
  }

  /** The class names of a `class` attribute, in order. */
  function Tokens(s: string): (ts: seq<string>)
    ensures forall i | 0 <= i < |ts| :: IsWord(ts[i])
    decreases |s|
  {
    if s == [] then []
    else if s[0] == ' ' then Tokens(s[1..])
    else
      var n := WordLength(s);
      [s[..n]] + Tokens(s[n..])
  }

  /** Joining with a space: the tokens of `x + " " + y` are those of `x` followed by those of `y`. */
  lemma {:induction false} TokensConcat(x: string, y: string)
    ensures Tokens(x + " " + y) == Tokens(x) + Tokens(y)
    decreases |x|
  {
    if x == [] {
      assert (x + " " + y)[1..] == y;
    } else if x[0] == ' ' {
      SpaceStep(x, y);
      TokensConcat(x[1..], y);
    } else {
      WordStep(x, y);
      var n := WordLength(x);
      assert Tokens(x) == [x[..n]] + Tokens(x[n..]);
      TokensConcat(x[n..], y);
    }
  }

  /** A leading space of `x` is skipped in `x + " " + y` as in `x`. */
  lemma SpaceStep(x: string, y: string)
    requires x != [] && x[0] == ' '
    ensures Tokens(x + " " + y) == Tokens(x[1..] + " " + y)
    ensures Tokens(x) == Tokens(x[1..])
  {
    var s := x + " " + y;
    assert s[0] == ' ';
    assert s[1..] == x[1..] + " " + y;
  }

  /** A leading word of `x` is the leading word of `x + " " + y`, and the rest follows it. */
  lemma WordStep(x: string, y: string)
    requires x != [] && x[0] != ' '
    ensures WordLength(x) > 0
    ensures var n := WordLength(x); Tokens(x + " " + y) == [x[..n]] + Tokens(x[n..] + " " + y)
  {
    var n := WordLength(x);
    var rest := " " + y;
    assert x + " " + y == x + rest;
    WordSlices(x, rest);
    assert x[n..] + rest == x[n..] + " " + y;
  }

  /** Where the leading word of `x + rest` ends when `rest` starts with a space. */
  lemma WordSlices(x: string, rest: string)
    requires x != [] && x[0] != ' ' && rest != [] && rest[0] == ' '
    ensures var s, n := x + rest, WordLength(x);
      s[0] != ' ' && WordLength(s) == n && s[..n] == x[..n] && s[n..] == x[n..] + rest
  {
    WordLengthOfPrefix(x, rest);
    var s, n := x + rest, WordLength(x);
    assert s[0] == x[0];
    assert s[..n] == x[..n];
    assert s[n..] == x[n..] + rest;
  }

  /** A word in `x` ends where it ends in `x + rest` when `rest` starts with a space. */
  lemma {:induction false} WordLengthOfPrefix(x: string, rest: string)
    requires rest != [] && rest[0] == ' '
    ensures WordLength(x + rest) == WordLength(x)
  {
    if x != [] && x[0] != ' ' {
      assert (x + rest)[1..] == x[1..] + rest;
      WordLengthOfPrefix(x[1..], rest);
    }
  }

  /** `names.join(" ")`: how the templates of the component build a class list. */
  function JoinTokens(names: seq<string>): string
  {
    JoinStrings(names, " ")
  }

  /** Splitting a joined list of class names gives the names back. */
  lemma {:induction false} TokensOfJoin(names: seq<string>)
    requires forall i | 0 <= i < |names| :: IsWord(names[i])
    ensures Tokens(JoinTokens(names)) == names
  {
    if names != [] {
      var n := |names| - 1;
      var last := names[n];
      assert Tokens(last) == [last] by {
        assert WordLength(last) == |last| by { WordLengthOfWord(last); }
        assert last[..|last|] == last;
        assert last[|last|..] == [];
      }
      if n == 0 {
        assert names == [last];
      } else {
        var front := names[..n];
        TokensOfJoin(front);
        JoinStringsSnoc(front, last, " ");
        assert front + [last] == names;
        TokensConcat(JoinTokens(front), last);
      }
    }
  }

  lemma {:induction false} WordLengthOfWord(w: string)
    requires forall i | 0 <= i < |w| :: w[i] != ' '
    ensures WordLength(w) == |w|
  {
    if w != [] {
      WordLengthOfWord(w[1..]);
    }
  }

  // ---------------------------------------------------------------------------
  // The link classes

  const LinkBaseNames: seq<string> := ["flex", "items-center", "w-full", "px-4", "py-3", "text-gray-200", "hover:text-white",
    "hover:bg-gray-700", "rounded", "transition", "duration-150", "ease-in-out", "text-sm"]
  const ActiveLinkNames: seq<string> := ["bg-gray-700", "text-white", "font-medium"]
  const SubLinkBaseNames: seq<string> := ["flex", "items-center", "py-2", "pl-12", "pr-4", "text-gray-200", "hover:text-white",
    "hover:bg-gray-700", "rounded", "transition", "duration-150", "ease-in-out", "text-xs"]
  const ActiveSubLinkNames: seq<string> := ["bg-gray-700", "text-white"]

  predicate AllWords(names: seq<string>)
  {
    forall i | 0 <= i < |names| :: IsWord(names[i])
  }

  lemma LinkBaseAreWords()
    ensures AllWords(LinkBaseNames)
  {
  }

  lemma SubLinkBaseAreWords()
    ensures AllWords(SubLinkBaseNames)
  {
  }

  lemma ActiveAreWords()
    ensures AllWords(ActiveLinkNames) && AllWords(ActiveSubLinkNames) && AllWords(["justify-center"])
  {
  }

  /** The tokens of `${base} ${part}` when the part is one list of names or empty. */
  lemma TokensOfTemplate(base: seq<string>, part: seq<string>)
    requires AllWords(base) && AllWords(part)
    ensures Tokens(JoinTokens(base) + " " + JoinTokens(part)) == base + part
  {
    TokensConcat(JoinTokens(base), JoinTokens(part));
    TokensOfJoin(base);
    TokensOfJoin(part);
  }

  /** The tokens of `${base} ${first} ${second}`. */
  lemma TokensOfTemplate2(base: seq<string>, first: seq<string>, second: seq<string>)
    requires AllWords(base) && AllWords(first) && AllWords(second)
    ensures Tokens(JoinTokens(base) + " " + JoinTokens(first) + " " + JoinTokens(second)) == base + first + second
  {
    TokensConcat(JoinTokens(base) + " " + JoinTokens(first), JoinTokens(second));
    TokensOfTemplate(base, first);
    TokensOfJoin(second);
  }

  /** `getNavLinkClass({ isActive })`: base, then `justify-center` when collapsed, then the active classes. */
  function GetNavLinkClass(isCollapsed: bool, isActive: bool): (c: string)
    ensures Tokens(c) == LinkBaseNames + (if isCollapsed then ["justify-center"] else [])
      + (if isActive then ActiveLinkNames else [])
  {
    var collapsed: seq<string> := if isCollapsed then ["justify-center"] else [];
    var active := if isActive then ActiveLinkNames else [];
    LinkBaseAreWords();
    ActiveAreWords();
    TokensOfTemplate2(LinkBaseNames, collapsed, active);
    JoinTokens(LinkBaseNames) + " " + JoinTokens(collapsed) + " " + JoinTokens(active)
  }

  /** `getSubNavLinkClass({ isActive })`: base, then the active classes. */
  function GetSubNavLinkClass(isActive: bool): (c: string)
    ensures Tokens(c) == SubLinkBaseNames + (if isActive then ActiveSubLinkNames else [])
  {
    var active := if isActive then ActiveSubLinkNames else [];
    SubLinkBaseAreWords();
    ActiveAreWords();
    TokensOfTemplate(SubLinkBaseNames, active);
    JoinTokens(SubLinkBaseNames) + " " + JoinTokens(active)
  }

  /** A link carries the active classes iff it is active, and `justify-center` iff the sidebar is collapsed. */
  lemma NavLinkClassTokens(isCollapsed: bool, isActive: bool)
    ensures forall t | t in ActiveLinkNames :: t in Tokens(GetNavLinkClass(isCollapsed, isActive)) <==> isActive
    ensures "justify-center" in Tokens(GetNavLinkClass(isCollapsed, isActive)) <==> isCollapsed
  {
    assert forall t | t in ActiveLinkNames :: t !in LinkBaseNames && t != "justify-center";
    assert "justify-center" !in LinkBaseNames && "justify-center" !in ActiveLinkNames;
  }

  /** A sub-link carries the active classes iff it is active. */
  lemma SubNavLinkClassTokens(isActive: bool)
    ensures forall t | t in ActiveSubLinkNames :: t in Tokens(GetSubNavLinkClass(isActive)) <==> isActive
  {
    assert forall t | t in ActiveSubLinkNames :: t !in SubLinkBaseNames;
  }

  // ---------------------------------------------------------------------------
  // The menu table

  datatype SubItem = SubItem(path: string, title: string)
  datatype MenuItem = MenuItem(key: string, title: string, subItems: seq<SubItem>)

  /** A submenu whose links are `/<key>/<leaf>`, as every entry of the table is written. */
  function Menu(key: string, title: string, links: seq<(string, string)>): (m: MenuItem)
    ensures m.key == key && |m.subItems| == |links|
    ensures forall j | 0 <= j < |links| :: m.subItems[j] == SubItem("/" + key + "/" + links[j].0, links[j].1)
  {
    MenuItem(key, title, seq(|links|, j requires 0 <= j < |links| => SubItem("/" + key + "/" + links[j].0, links[j].1)))
  }

  /** `menuItems`: the four submenus and their links. */
  function MenuItems(): (items: seq<MenuItem>)
    ensures forall i, j | 0 <= i < j < |items| :: items[i].key != items[j].key
    ensures forall i, j | 0 <= i < |items| && 0 <= j < |items[i].subItems| ::
      StartsWith(items[i].subItems[j].path, "/" + items[i].key + "/")
  {
    var items := [
      Menu("usuarios", "Usuarios", [
        ("list", "Lista de Usuarios"), ("create", "Crear Usuario"),
        ("detail", "Detalle del Usuario"), ("manage", "Gestión de Roles")]),
      Menu("productos", "Productos", [
        ("list", "Lista de Productos"), ("detail", "Detalle del Producto"), ("manage", "Gestión de Productos")]),
      Menu("ventas", "Ventas", [("list", "Lista de Ventas"), ("create", "Crear Venta")]),
      Menu("reportes", "Reportes", [("list", "Lista de Reportes"), ("create", "Crear Reporte")])];
    assert forall i, j | 0 <= i < j < |items| :: items[i].key[0] != items[j].key[0];
    items
  }

  // ---------------------------------------------------------------------------
  // The accordion

  /** The open submenu after clicking the header of `key`. */
  function NextOpenMenu(isCollapsed: bool, openMenu: Option<string>, key: string): (r: Option<string>)
    ensures isCollapsed ==> r == openMenu
    ensures !isCollapsed ==> (r == None <==> openMenu == Some(key))
    ensures !isCollapsed && r.Some? ==> r.value == key
  {
    if !isCollapsed then (if openMenu == Some(key) then None else Some(key)) else openMenu
  }

  /** Clicking the same header twice from all-closed ends all-closed; in between that submenu is the open one. */
  lemma ToggleTwice(isCollapsed: bool, key: string)
    ensures NextOpenMenu(isCollapsed, NextOpenMenu(isCollapsed, None, key), key) == None
    ensures !isCollapsed ==> NextOpenMenu(isCollapsed, None, key) == Some(key)
  {
  }

  /** Opening another submenu closes the one that was open. */
  lemma OpeningReplaces(openKey: string, key: string)
    requires openKey != key
    ensures NextOpenMenu(false, Some(openKey), key) == Some(key)
  {
  }

  class Sidebar {
    /** The key of the open submenu, if any. */
    var openMenu: Option<string>

    constructor()
      ensures openMenu == None
    {
      openMenu := None;
    }

    /** `handleToggleMenu(key)`: nothing happens while the sidebar is collapsed. */
    method HandleToggleMenu(isCollapsed: bool, key: string)
      modifies this
      ensures openMenu == NextOpenMenu(isCollapsed, old(openMenu), key)
    {
      if !isCollapsed {
        openMenu := if openMenu == Some(key) then None else Some(key);
      }
    }

    /** `toggleCollapse()`: reports the negated flag to the parent and closes every submenu. */
    method ToggleCollapse(isCollapsed: bool) returns (reported: bool)
      modifies this
      ensures reported == !isCollapsed && openMenu == None
    {
      reported := !isCollapsed;
      openMenu := None;
    }

    /** `handleLogout()`: logs out completely, then navigates to the login page. */
    method HandleLogout(auth: AuthProvider, reply: Reply) returns (sent: seq<Request>, navigatedTo: string)
      modifies auth, auth.storage
      ensures sent == [ApiRequest(Post, "/auth/logout/", Undefined, old(auth.storage.items))]
      ensures auth.storage.items == Cleared(old(auth.storage.items)) && auth.user == Null && !auth.loggedIn
      ensures navigatedTo == "/login"
    {
      sent := auth.Logout(reply);
      navigatedTo := "/login";
    }
  }
}
