/** The bottom navigation bar (app/components/dashboard/bottom-navigation.tsx):
    a link is highlighted when the current path is its target or lies below it. */
module BottomNav {
  import opened TextUtil

  /** `isActive(path)`: `pathname === path || pathname.startsWith(path + "/")` */
  predicate IsActive(pathname: string, path: string) {
    pathname == path || IsPrefix(path + "/", pathname)
  }

  /** The five link targets, in the order the bar shows them. */
  const NavTargets: seq<string> :=
    ["/admin/dashboard", "/admin/clients", "/admin/transactions", "/admin/staff", "/admin/products"]

  /** Any path below the target (the target, a slash, anything) highlights it. */
  lemma ActiveBelow(path: string, rest: string)
    ensures IsActive(path, path)
    ensures IsActive(path + "/" + rest, path)
  {
    assert (path + "/" + rest)[..|path + "/"|] == path + "/";
  }

  /** A longer path that shares the target as a prefix but does not continue with
      a slash (a sibling such as "/admin/clientsX") does not highlight it. */
  lemma SiblingNotActive(pathname: string, path: string)
    requires IsPrefix(path, pathname) && |pathname| > |path| && pathname[|path|] != '/'
    ensures !IsActive(pathname, path)
  {
    assert pathname[..|path|] == path;
  }

  /** Two prefixes of one string with the same length are equal, and so are the
      strings they extend by one character. */
  lemma SamePrefixLength(x: string, y: string, s: string)
    requires IsPrefix(x, s) && IsPrefix(y, s) && |x| == |y| > 0
    ensures x == y && x[..|x| - 1] == y[..|y| - 1]
  {
  }

  /** Two different targets are both active only when one of them lies below
      the other: the shorter one followed by a slash begins the longer one. */
  lemma {:induction false} ActiveTargetsNest(pathname: string, a: string, b: string)
    requires a != b
    requires IsActive(pathname, a) && IsActive(pathname, b)
    ensures IsPrefix(a + "/", b) || IsPrefix(b + "/", a)
  {
    if pathname != a && pathname != b {
      if |a| < |b| {
        assert b[..|a + "/"|] == pathname[..|a + "/"|] == a + "/";
      } else if |b| < |a| {
        assert a[..|b + "/"|] == pathname[..|b + "/"|] == b + "/";
      } else {
        SamePrefixLength(a + "/", b + "/", pathname);
        assert false;
      }
    }
  }

  /** Whatever the current path, at most one of the five links is highlighted. */
  lemma AtMostOneActive(pathname: string)
    ensures forall i, j :: 0 <= i < j < |NavTargets| ==>
      !(IsActive(pathname, NavTargets[i]) && IsActive(pathname, NavTargets[j]))
  {
    forall i, j | 0 <= i < j < |NavTargets|
      ensures !(IsActive(pathname, NavTargets[i]) && IsActive(pathname, NavTargets[j]))
    {
      var a, b := NavTargets[i], NavTargets[j];
      assert a != b;
      assert a[7] != b[7] || a[8] != b[8];
      assert !IsPrefix(a + "/", b) by { assert |a + "/"| > |b| || (a + "/")[7] != b[7] || (a + "/")[8] != b[8]; }
      assert !IsPrefix(b + "/", a) by { assert |b + "/"| > |a| || (b + "/")[7] != a[7] || (b + "/")[8] != a[8]; }
      if IsActive(pathname, a) && IsActive(pathname, b) {
        ActiveTargetsNest(pathname, a, b);
      }
    }
  }
}
