/**
  The sidebar's two helpers: which menu item is highlighted for the current
  path, and the initials shown in the user's avatar; plus the footer's
  fallbacks when no user is signed in.
*/
module Sidebar {
  import opened Wrappers
  import opened Schema
  import Js

  /** The menu's item urls, group by group. */
  const MenuUrls: seq<string> := [
    "/dashboard",
    "/dashboard/clientes", "/dashboard/produtos", "/dashboard/fornecedores",
    "/dashboard/vendas", "/dashboard/financeiro",
    "/dashboard/relatorios",
    "/dashboard/configuracoes"]

  const DashboardUrl := "/dashboard"

  /**
    The highlight rule: the Dashboard item only for '/dashboard' itself, any
    other item for its url or a path below it.
  */
  predicate IsActive(url: string, pathname: string) {
    if url == DashboardUrl then pathname == DashboardUrl
    else pathname == url || Js.StartsWith(pathname, url + "/")
  }

  /** The Dashboard item is not highlighted on the pages below it. */
  lemma DashboardExact(pathname: string)
    ensures IsActive(DashboardUrl, pathname) <==> pathname == DashboardUrl
  {
  }

  /** Any other item is highlighted on its own page and on every page below it, and nowhere else. */
  lemma OtherItemsCoverSubpaths(url: string, pathname: string)
    requires url != DashboardUrl
    ensures IsActive(url, pathname) <==>
              pathname == url || (|pathname| > |url| && pathname[..|url|] == url && pathname[|url|] == '/')
  {
    if |pathname| > |url| && pathname[..|url|] == url && pathname[|url|] == '/' {
      assert pathname[..|url| + 1] == url + "/";
    }
    if Js.StartsWith(pathname, url + "/") {
      assert pathname[..|url|] == (url + "/")[..|url|];
      assert pathname[|url|] == (url + "/")[|url|];
    }
  }

  /** Two highlighted items other than Dashboard agree on every position both urls have. */
  lemma ActiveAgree(u: string, v: string, pathname: string)
    requires u != DashboardUrl && v != DashboardUrl
    requires IsActive(u, pathname) && IsActive(v, pathname)
    ensures forall k | 0 <= k < |u| && k < |v| :: u[k] == v[k]
  {
    OtherItemsCoverSubpaths(u, pathname);
    OtherItemsCoverSubpaths(v, pathname);
    assert pathname[..|u|] == u && pathname[..|v|] == v;
    forall k | 0 <= k < |u| && k < |v| ensures u[k] == v[k] {
      assert u[k] == pathname[..|u|][k] == pathname[k] == pathname[..|v|][k];
    }
  }

  /** On any page at most one menu item is highlighted. */
  lemma AtMostOneActive(pathname: string)
    ensures forall i, j | 0 <= i < j < |MenuUrls| :: !(IsActive(MenuUrls[i], pathname) && IsActive(MenuUrls[j], pathname))
  {
    forall i, j | 0 <= i < j < |MenuUrls|
      ensures !(IsActive(MenuUrls[i], pathname) && IsActive(MenuUrls[j], pathname))
    {
      var u, v := MenuUrls[i], MenuUrls[j];
      assert |v| > |DashboardUrl| + 1 && v != DashboardUrl;
      if i > 0 && IsActive(u, pathname) && IsActive(v, pathname) {
        assert u[11] != v[11] || u[12] != v[12];
        ActiveAgree(u, v, pathname);
        assert false;
      }
    }
  }

  // ============================================================= initials

  /** `s.split(' ')`: the pieces between spaces, empty ones included; never empty. */
  function Split(s: string): (words: seq<string>)
    ensures |words| >= 1
    ensures forall k | 0 <= k < |words| :: ' ' !in words[k]
  {
    if s == [] then [""]
    else
      var rest := Split(s[1..]);
      if s[0] == ' ' then [""] + rest
      else [[s[0]] + rest[0]] + rest[1..]
  }

  /** `words.join(' ')` */
  function JoinWithSpaces(words: seq<string>): string
    requires |words| >= 1
  {
    if |words| == 1 then words[0] else words[0] + " " + JoinWithSpaces(words[1..])
  }

  /** Splitting loses nothing: joining the pieces back gives the name. */
  lemma {:induction false} SplitJoin(s: string)
    ensures JoinWithSpaces(Split(s)) == s
  {
    if s != [] {
      var rest := Split(s[1..]);
      SplitJoin(s[1..]);
      if s[0] == ' ' {
        assert s == [' '] + s[1..];
      } else {
        var words := Split(s);
        assert words[0] == [s[0]] + rest[0] && words[1..] == rest[1..];
        if |rest| == 1 {
          assert s == [s[0]] + rest[0];
        } else {
          assert JoinWithSpaces(rest) == rest[0] + " " + JoinWithSpaces(rest[1..]);
          assert s == [s[0]] + JoinWithSpaces(rest);
        }
      }
    }
  }

  /** `.map(n => n[0]).join('')`: the first character of each piece; an empty piece gives `undefined`, joined as nothing. */
  function FirstChars(words: seq<string>): string {
    if words == [] then ""
    else (if words[0] == "" then "" else [words[0][0]]) + FirstChars(words[1..])
  }

  /**
    Reference definition: the characters of `s` that start a word, that is,
    are not a space and come first or right after a space. `atStart` tells
    whether the previous character was a space (or there was none).
  */
  function WordStarts(s: string, atStart: bool): (r: string)
    ensures |r| <= |s|
    ensures ' ' !in r
    ensures forall k | 0 <= k < |r| :: r[k] in s
  {
    if s == [] then ""
    else
      var rest := WordStarts(s[1..], s[0] == ' ');
      (if s[0] != ' ' && atStart then [s[0]] else "") + rest
  }

  /** The piece-by-piece reading and the character-by-character one agree. */
  lemma {:induction false} FirstCharsAreWordStarts(s: string)
    ensures FirstChars(Split(s)) == WordStarts(s, true)
    ensures FirstChars(Split(s)[1..]) == WordStarts(s, false)
  {
    if s != [] {
      FirstCharsAreWordStarts(s[1..]);
      var rest := Split(s[1..]);
      if s[0] == ' ' {
        assert Split(s)[1..] == rest;
      } else {
        assert Split(s)[1..] == rest[1..];
        assert Split(s)[0] != "" && Split(s)[0][0] == s[0];
      }
    }
  }

  /** `getInitials(name)`: the word starts, uppercased, cut to two. */
  function GetInitials(name: string): (r: string)
    ensures |r| <= 2
    ensures var starts := Js.AsciiUpperString(WordStarts(name, true));
            r == starts[..if |starts| < 2 then |starts| else 2]
  {
    var joined := Js.AsciiUpperString(FirstChars(Split(name)));
    FirstCharsAreWordStarts(name);
    joined[..if |joined| < 2 then |joined| else 2]
  }

  /** A space doubled anywhere in the name does not change its word starts. */
  lemma {:induction false} DoubledSpace(a: string, s: string, atStart: bool)
    ensures WordStarts(a + "  " + s, atStart) == WordStarts(a + " " + s, atStart)
  {
    if a == [] {
      assert (a + "  " + s)[1..] == " " + s;
      assert (" " + s)[1..] == s;
      assert (a + " " + s) == " " + s;
    } else {
      assert (a + "  " + s)[1..] == a[1..] + "  " + s;
      assert (a + " " + s)[1..] == a[1..] + " " + s;
      DoubledSpace(a[1..], s, a[0] == ' ');
    }
  }

  /** Extra spaces contribute nothing: a doubled space or a leading one leaves the initials as they were. */
  lemma ExtraSpacesIgnored(a: string, s: string)
    ensures GetInitials(a + "  " + s) == GetInitials(a + " " + s)
    ensures GetInitials(" " + s) == GetInitials(s)
  {
    var doubled, single := a + "  " + s, a + " " + s;
    assert WordStarts(doubled, true) == WordStarts(single, true) by {
      DoubledSpace(a, s, true);
    }
    assert WordStarts(" " + s, true) == WordStarts(s, true) by {
      assert (" " + s)[1..] == s;
    }
  }

  // ================================================================ footer

  /** What the footer shows: avatar text, name and role. */
  datatype UserBadge = UserBadge(initials: string, nome: string, role: string)

  /**
    With no user: 'U', 'Usuário', 'vendedor'. With one: the initials, the
    name or 'Usuário' when it is empty, and the role.
  */
  function Badge(user: Option<(string, UserRole)>): (b: UserBadge)
    ensures user.None? ==> b == UserBadge("U", "Usuário", "vendedor")
    ensures user.Some? ==> b.initials == GetInitials(user.value.0) && b.role == RoleCode(user.value.1)
    ensures user.Some? ==> b.nome == if user.value.0 == "" then "Usuário" else user.value.0
  {
    match user
    case None => UserBadge("U", "Usuário", "vendedor")
    case Some((nome, role)) => UserBadge(GetInitials(nome), if nome == "" then "Usuário" else nome, RoleCode(role))
  }
}
