/**
 * The site navigation bar: which link is highlighted for the current path,
 * the `tel:` links of the contact numbers, and the menu state the bar keeps
 * (the mobile menu, its one open dropdown, the services and phone pop-ups,
 * the scrolled look and the page's scroll lock).
 */
module Navbar {
  import opened Wrappers
  import opened JsText

  // ---------------------------------------------------------------------------
  // Links
  // ---------------------------------------------------------------------------

  datatype Item = Item(name: string, href: string)

  /** A plain link, or the services button with its dropdown. */
  datatype NavLink = Plain(name: string, href: string) | Services(name: string, items: seq<Item>)

  const ServiceItems: seq<Item> := [
    Item("Canada Immigration", "/immigration/canada"),
    Item("Australia Immigration", "/immigration/australia"),
    Item("USA Immigration", "/immigration/usa"),
    Item("UK Immigration", "/immigration/uk"),
    Item("New Zealand Immigration", "/immigration/newzealand")
  ]

  const NavLinks: seq<NavLink> := [
    Plain("Home", "/"), Plain("Gallery", "/gallery"), Plain("Achievements", "/achievements"),
    Plain("About", "/about"), Plain("Testimonials", "/testimonials"),
    Services("Our Services", ServiceItems)
  ]

  const ServicesPrefix := "/immigration"

  /** Whether a link of the desktop bar is highlighted on `pathname`. */
  predicate IsActive(pathname: string, link: NavLink) {
    match link
    case Plain(_, href) => pathname == href
    case Services(_, _) => StartsWith(pathname, ServicesPrefix)
  }

  /** Whether a dropdown entry is highlighted on `pathname`. */
  predicate ItemActive(pathname: string, item: Item) {
    pathname == item.href
  }

  /** Every service page lies under the services prefix. */
  lemma ServiceItemsUnderPrefix()
    ensures forall i :: 0 <= i < |ServiceItems| ==> StartsWith(ServiceItems[i].href, ServicesPrefix)
  {
    forall i | 0 <= i < |ServiceItems|
      ensures StartsWith(ServiceItems[i].href, ServicesPrefix)
    {
      assert ServiceItems[i].href[..12] == ServicesPrefix;
    }
  }

  /** On a service page both the entry and the services button are
      highlighted, and no plain link is. */
  lemma ServicePageHighlightsButton(pathname: string, i: nat)
    requires i < |ServiceItems| && ItemActive(pathname, ServiceItems[i])
    ensures IsActive(pathname, NavLinks[5])
    ensures forall k :: 0 <= k < 5 ==> !IsActive(pathname, NavLinks[k])
  {
    ServiceItemsUnderPrefix();
    forall k | 0 <= k < 5
      ensures !IsActive(pathname, NavLinks[k])
    {
      assert pathname[1] == 'i';
      assert NavLinks[k].href == [] || NavLinks[k].href[1..] == [] || NavLinks[k].href[1] != 'i';
    }
  }

  /** At most one plain link is highlighted on any path. */
  lemma AtMostOnePlainActive(pathname: string, j: nat, k: nat)
    requires j < k < 5
    ensures !(IsActive(pathname, NavLinks[j]) && IsActive(pathname, NavLinks[k]))
  {
  }

  // ---------------------------------------------------------------------------
  // Phone links
  // ---------------------------------------------------------------------------

  datatype Phone = Phone(caption: string, number: string)

  const PhoneNumbers := [Phone("Official Contact", "+91 95920-12334"), Phone("Emergency", "+91 96272-00088")]

  /** `number.replace(/\D/g, '')`: the ASCII digits of the number, in order. */
  function Digits(number: string): (r: string)
    ensures forall i :: 0 <= i < |r| ==> IsDigit(r[i])
  {
    Filter(number, IsDigit)
  }

  /** The `tel:` href of a number: the scheme, then only digits. */
  function TelHref(number: string): (r: string)
    ensures |r| >= 4 && r[..4] == "tel:"
    ensures forall i :: 4 <= i < |r| ==> IsDigit(r[i])
    ensures |r| <= 4 + |number|
  {
    "tel:" + Digits(number)
  }

  /** A number written as `+cc nnnnn-nnnnn`, as both menu numbers are,
      dials its three digit groups. */
  lemma DialledDigits(plus: string, cc: string, space: string, a: string, dash: string, b: string)
    requires plus == "+" && space == " " && dash == "-"
    requires forall i :: 0 <= i < |cc| ==> IsDigit(cc[i])
    requires forall i :: 0 <= i < |a| ==> IsDigit(a[i])
    requires forall i :: 0 <= i < |b| ==> IsDigit(b[i])
    ensures Digits(plus + cc + space + a + dash + b) == cc + a + b
  {
    DigitsSpec(plus, cc);
    DigitsSpec(cc, []);
    var s1 := plus + cc;
    assert Digits(s1) == cc;
    DigitsSpec(s1, space);
    DigitsSpec(space, []);
    var s2 := s1 + space;
    assert Digits(s2) == cc;
    DigitsSpec(s2, a);
    DigitsSpec(a, []);
    var s3 := s2 + a;
    assert Digits(s3) == cc + a;
    DigitsSpec(s3, dash);
    DigitsSpec(dash, []);
    var s4 := s3 + dash;
    assert Digits(s4) == cc + a;
    DigitsSpec(s4, b);
    DigitsSpec(b, []);
  }

  /** Removing the non-digits keeps every digit, in order: the digits of a
      concatenation are the digits of each part, and a string of digits is
      its own digit string. */
  lemma DigitsSpec(a: string, b: string)
    ensures Digits(a + b) == Digits(a) + Digits(b)
    ensures (forall i :: 0 <= i < |a| ==> IsDigit(a[i])) ==> Digits(a) == a
    ensures (forall i :: 0 <= i < |a| ==> !IsDigit(a[i])) ==> Digits(a) == []
  {
    FilterAppend(a, b, IsDigit);
    if forall i :: 0 <= i < |a| ==> IsDigit(a[i]) {
      FilterAll(a, IsDigit);
    }
    if forall i :: 0 <= i < |a| ==> !IsDigit(a[i]) {
      FilterNothing(a);
    }
  }

  lemma {:induction false} FilterNothing(a: string)
    requires forall i :: 0 <= i < |a| ==> !IsDigit(a[i])
    ensures Filter(a, IsDigit) == []
    decreases |a|
  {
    if a != [] {
      FilterNothing(a[1..]);
    }
  }

  // ---------------------------------------------------------------------------
  // Menu state
  // ---------------------------------------------------------------------------

  /** `toggleDropdown(name)`: the same name closes it, another opens that one. */
  function NextDropdown(active: Option<string>, name: string): (r: Option<string>)
    ensures active == Some(name) ==> r.None?
    ensures active != Some(name) ==> r == Some(name)
  {
    if active == Some(name) then None else Some(name)
  }

  /** Toggling the same dropdown twice from a state where it or none is
      open restores that state. */
  lemma ToggleDropdownTwice(active: Option<string>, name: string)
    requires active.None? || active == Some(name)
    ensures NextDropdown(NextDropdown(active, name), name) == active
  {
  }

  class Bar {
    var isOpen: bool
    var scrolled: bool
    var isVerificationOpen: bool
    var isPhoneOpen: bool
    var activeDropdown: Option<string>
    /** `document.body.style.overflow`. */
    var bodyOverflow: string

    /** The page scrolls exactly while the mobile menu is closed. */
    predicate Valid()
      reads this
    {
      bodyOverflow == (if isOpen then "hidden" else "")
    }

    constructor()
      ensures Valid()
      ensures !isOpen && !scrolled && !isVerificationOpen && !isPhoneOpen && activeDropdown.None?
    {
      isOpen := false;
      scrolled := false;
      isVerificationOpen := false;
      isPhoneOpen := false;
      activeDropdown := None;
      bodyOverflow := "";
    }

    /** The scroll listener. */
    method Scroll(scrollY: real)
      modifies this
      ensures scrolled <==> scrollY > 10.0
      ensures isOpen == old(isOpen) && activeDropdown == old(activeDropdown) && bodyOverflow == old(bodyOverflow)
      ensures isVerificationOpen == old(isVerificationOpen) && isPhoneOpen == old(isPhoneOpen)
    {
      scrolled := scrollY > 10.0;
    }

    /** `toggleMenu`: opening locks the page scroll, closing releases it. */
    method ToggleMenu()
      requires Valid()
      modifies this
      ensures Valid()
      ensures isOpen == !old(isOpen)
      ensures bodyOverflow == (if old(isOpen) then "" else "hidden")
      ensures activeDropdown == old(activeDropdown) && scrolled == old(scrolled)
      ensures isVerificationOpen == old(isVerificationOpen) && isPhoneOpen == old(isPhoneOpen)
    {
      var wasOpen := isOpen;
      isOpen := !wasOpen;
      bodyOverflow := if wasOpen then "" else "hidden";
    }

    /** `toggleDropdown(name)`. */
    method ToggleDropdown(name: string)
      modifies this
      ensures activeDropdown == NextDropdown(old(activeDropdown), name)
      ensures isOpen == old(isOpen) && scrolled == old(scrolled) && bodyOverflow == old(bodyOverflow)
      ensures isVerificationOpen == old(isVerificationOpen) && isPhoneOpen == old(isPhoneOpen)
    {
      activeDropdown := if activeDropdown == Some(name) then None else Some(name);
    }

    /** `closeMobileMenu`, run by every link of the mobile menu. */
    method CloseMobileMenu()
      modifies this
      ensures Valid()
      ensures !isOpen && activeDropdown.None? && bodyOverflow == ""
      ensures scrolled == old(scrolled)
      ensures isVerificationOpen == old(isVerificationOpen) && isPhoneOpen == old(isPhoneOpen)
    {
      isOpen := false;
      activeDropdown := None;
      bodyOverflow := "";
    }

    /** Hovering over and leaving the services button. */
    method HoverServices(inside: bool)
      modifies this
      ensures isVerificationOpen == inside
      ensures isOpen == old(isOpen) && activeDropdown == old(activeDropdown) && bodyOverflow == old(bodyOverflow)
      ensures scrolled == old(scrolled) && isPhoneOpen == old(isPhoneOpen)
    {
      isVerificationOpen := inside;
    }

    /** The phone button flips the phone pop-up. */
    method TogglePhone()
      modifies this
      ensures isPhoneOpen == !old(isPhoneOpen)
      ensures isOpen == old(isOpen) && activeDropdown == old(activeDropdown) && bodyOverflow == old(bodyOverflow)
      ensures scrolled == old(scrolled) && isVerificationOpen == old(isVerificationOpen)
    {
      isPhoneOpen := !isPhoneOpen;
    }
  }
}
