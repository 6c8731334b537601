// The navigation bar of app/components/Navbar.tsx: which link is marked
// active for the current path, the class names that mark it, and the
// mobile menu flag.

module Navbar {
  import opened Text

  const Home: string := "/"

  /** `isActive(path)`: the home link only on the home page, every other link on any path it prefixes. */
  function IsActive(pathname: string, path: string): (b: bool)
    ensures path == Home ==> (b <==> pathname == Home)
    ensures path != Home ==> (b <==> StartsWith(pathname, path))
  {
    if path == Home then pathname == path else StartsWith(pathname, path)
  }

  /** A section link stays active on every page below it, and on any path that merely extends its text. */
  lemma ActiveBelowSection(pathname: string, path: string, rest: string)
    requires path != Home && IsActive(pathname, path)
    ensures IsActive(pathname + rest, path)
  {
    assert (pathname + rest)[..|path|] == pathname[..|path|];
  }

  /** Prefix matching does not respect path segments: `/models` is active on `/modelsx` too. */
  lemma ModelsActiveOnLongerName()
    ensures IsActive("/models/x", "/models")
    ensures IsActive("/modelsx", "/models")
    ensures !IsActive("/models", "/")
  {
    assert "/models/x"[..7] == "/models";
    assert "/modelsx"[..7] == "/models";
  }

  const DesktopBase: string := "px-3 py-2 text-sm font-medium relative transition-all duration-300"
  const DesktopActive: string := " text-blue-600 font-semibold active-link"
  const DesktopIdle: string := " text-slate-700 hover:text-blue-600"

  const MobileBase: string := "block px-3 py-2 text-base font-medium relative transition-all duration-300"
  const MobileActive: string := " text-blue-600 bg-blue-50 font-semibold"
  const MobileIdle: string := " text-slate-700 hover:text-blue-600 hover:bg-blue-50"

  lemma ClassSuffixes()
    ensures EndsWith(DesktopActive, "active-link") && !EndsWith(DesktopIdle, "active-link")
    ensures |DesktopIdle| >= 11
    ensures EndsWith(MobileActive, "bg-blue-50 font-semibold") && !EndsWith(MobileIdle, "bg-blue-50 font-semibold")
    ensures |MobileIdle| >= 24
  {
    assert DesktopActive[|DesktopActive| - 11..] == "active-link";
    assert DesktopIdle[|DesktopIdle| - 1] == '0';
    assert MobileActive[|MobileActive| - 24..] == "bg-blue-50 font-semibold";
    assert MobileIdle[|MobileIdle| - 1] == '0';
  }

  /** `getLinkClassName`: the shared base, then the `active-link` variant exactly when the link is active. */
  function LinkClassName(pathname: string, path: string): (r: string)
    ensures StartsWith(r, DesktopBase)
    ensures EndsWith(r, "active-link") <==> IsActive(pathname, path)
  {
    var variant := if IsActive(pathname, path) then DesktopActive else DesktopIdle;
    ClassSuffixes();
    StartsWithConcat(DesktopBase, variant);
    EndsWithConcat(DesktopBase, variant, "active-link");
    DesktopBase + variant
  }

  /** `getMobileLinkClassName`: the shared base, then the `bg-blue-50 font-semibold` variant exactly when active. */
  function MobileLinkClassName(pathname: string, path: string): (r: string)
    ensures StartsWith(r, MobileBase)
    ensures EndsWith(r, "bg-blue-50 font-semibold") <==> IsActive(pathname, path)
  {
    var variant := if IsActive(pathname, path) then MobileActive else MobileIdle;
    ClassSuffixes();
    StartsWithConcat(MobileBase, variant);
    EndsWithConcat(MobileBase, variant, "bg-blue-50 font-semibold");
    MobileBase + variant
  }

  /** The `isMenuOpen` state of the mobile menu. */
  class Menu {
    var isMenuOpen: bool

    constructor ()
      ensures !isMenuOpen
    {
      isMenuOpen := false;
    }

    /** The menu button flips the flag. */
    method ToggleMenu()
      modifies this
      ensures isMenuOpen == !old(isMenuOpen)
    {
      isMenuOpen := !isMenuOpen;
    }

    /** Every mobile link closes the menu. */
    method MobileLinkClicked()
      modifies this
      ensures !isMenuOpen
    {
      isMenuOpen := false;
    }
  }
}
