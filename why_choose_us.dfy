/**
 * The data-driven parts of the "Why choose us" home section: the offices
 * read from the knowledge file (the Canada office, the India offices, the
 * first two contact phones), the partner-logo slugs and the set of logos
 * that failed to load, and the blurb under each consultation service.
 */
module WhyChooseUs {
  import opened Wrappers
  import opened JsText

  /** An office record of the knowledge file; `phone` may be absent. */
  datatype Office = Office(country: string, phone: Option<seq<string>>)

  /** `Knowledge.contact`, which may be absent or lack `offices`. */
  datatype Contact = Contact(offices: Option<seq<Office>>)

  /** `Knowledge.contact?.offices || []` (an array is truthy even when empty). */
  function Offices(contact: Option<Contact>): (r: seq<Office>)
    ensures contact.None? || contact.value.offices.None? ==> r == []
    ensures contact.Some? && contact.value.offices.Some? ==> r == contact.value.offices.value
  {
    if contact.Some? && contact.value.offices.Some? then contact.value.offices.value else []
  }

  predicate InCanada(o: Office) { o.country == "Canada" }
  predicate InIndia(o: Office) { o.country == "India" }

  /** `offices.find(o => o.country === 'Canada')`. */
  function CanadaOffice(offices: seq<Office>): (r: Option<Office>)
    ensures r.Some? ==> r.value in offices && r.value.country == "Canada"
    ensures r.None? <==> forall i :: 0 <= i < |offices| ==> offices[i].country != "Canada"
    ensures r.Some? ==>
              exists k :: 0 <= k < |offices| && offices[k] == r.value && (forall j :: 0 <= j < k ==> offices[j].country != "Canada")
  {
    var k := FirstWhere(offices, InCanada);
    if k.Some? then Some(offices[k.value]) else None
  }

  /** `offices.filter(o => o.country === 'India')`. */
  function IndiaOffices(offices: seq<Office>): seq<Office> {
    Filter(offices, InIndia)
  }

  /** The India offices are exactly the offices located in India, and a run
      of offices contributes its India offices in place. */
  lemma IndiaOfficesSpec(a: seq<Office>, b: seq<Office>)
    ensures forall o :: o in IndiaOffices(a) <==> o in a && o.country == "India"
    ensures IndiaOffices(a + b) == IndiaOffices(a) + IndiaOffices(b)
  {
    FilterAppend(a, b, InIndia);
  }

  /** `o.phone || []`. */
  function PhonesOf(o: Office): seq<string> {
    o.phone.GetOr([])
  }

  /** `offices.flatMap(o => o.phone || [])`. */
  function AllPhones(offices: seq<Office>): seq<string>
    decreases |offices|
  {
    if offices == [] then [] else PhonesOf(offices[0]) + AllPhones(offices[1..])
  }

  lemma {:induction false} AllPhonesAppend(a: seq<Office>, b: seq<Office>)
    ensures AllPhones(a + b) == AllPhones(a) + AllPhones(b)
    decreases |a|
  {
    if a == [] {
      assert a + b == b;
    } else {
      assert (a + b)[1..] == a[1..] + b;
      AllPhonesAppend(a[1..], b);
    }
  }

  /** `offices.length ? offices.flatMap(...).slice(0, 2) : []`. */
  function ContactPhones(offices: seq<Office>): (r: seq<string>)
    ensures |r| == if |AllPhones(offices)| < 2 then |AllPhones(offices)| else 2
    ensures r == AllPhones(offices)[..|r|]
  {
    if |offices| > 0 then Take(AllPhones(offices), 2) else []
  }

  /** An office without phones contributes nothing, wherever it stands. */
  lemma PhonelessOfficeAddsNothing(a: seq<Office>, country: string, b: seq<Office>)
    ensures ContactPhones(a + [Office(country, None)] + b) == ContactPhones(a + b) || a + b == []
    ensures AllPhones(a + [Office(country, None)] + b) == AllPhones(a + b)
  {
    var o := Office(country, None);
    AllPhonesAppend(a + [o], b);
    AllPhonesAppend(a, [o]);
    AllPhonesAppend(a, b);
    assert AllPhones([o]) == [];
  }

  /** When the first office lists two phones or more, those two are the
      contact phones. */
  lemma FirstOfficePhones(offices: seq<Office>)
    requires |offices| > 0 && |PhonesOf(offices[0])| >= 2
    ensures ContactPhones(offices) == PhonesOf(offices[0])[..2]
  {
    assert AllPhones(offices) == PhonesOf(offices[0]) + AllPhones(offices[1..]);
  }

  // ---------------------------------------------------------------------------
  // Partner logos
  // ---------------------------------------------------------------------------

  /** The characters a slug keeps: `[a-z0-9-]`. */
  predicate IsSlugChar(c: char) {
    ('a' <= c <= 'z') || ('0' <= c <= '9') || c == '-'
  }

  /** `s.replace(/\s+/g, '-')`: each run of whitespace becomes one dash. */
  function DashRuns(s: string): (r: string)
    ensures |r| <= |s|
    ensures forall i :: 0 <= i < |r| ==> !IsWhiteSpace(r[i])
    ensures (forall i :: 0 <= i < |s| ==> !IsWhiteSpace(s[i])) ==> r == s
    decreases |s|
  {
    if s == [] then []
    else if IsWhiteSpace(s[0]) then
      var rest := TrimStart(s[1..]);
      assert |rest| < |s|;
      "-" + DashRuns(rest)
    else [s[0]] + DashRuns(s[1..])
  }

  /** The logo slug of a university name. */
  function Slug(name: string): (slug: string)
    ensures forall i :: 0 <= i < |slug| ==> IsSlugChar(slug[i])
  {
    Filter(DashRuns(Lower(name)), IsSlugChar)
  }

  /** `/logos/{slug}.png`. */
  function LogoSrc(name: string): string {
    "/logos/" + Slug(name) + ".png"
  }

  /** A name that is already a slug is its own slug; so slugging is
      idempotent. */
  lemma SlugOfSlug(s: string)
    requires forall i :: 0 <= i < |s| ==> IsSlugChar(s[i])
    ensures Slug(s) == s
  {
    assert Lower(s) == s;
    assert forall i :: 0 <= i < |s| ==> !IsWhiteSpace(s[i]);
    FilterAll(s, IsSlugChar);
  }

  lemma SlugIdempotent(name: string)
    ensures Slug(Slug(name)) == Slug(name)
  {
    SlugOfSlug(Slug(name));
  }

  /** A run of whitespace between a word and the rest becomes one dash. */
  lemma WhitespaceRunIsOneDash(a: string, w: string, b: string)
    requires forall i :: 0 <= i < |a| ==> !IsWhiteSpace(a[i])
    requires w != [] && AllWhiteSpace(w)
    requires b == [] || !IsWhiteSpace(b[0])
    ensures DashRuns(a + w + b) == a + "-" + DashRuns(b)
  {
    assert a + w + b == a + (w + b);
    WordKept(a, w + b);
    RunBecomesDash(w, b);
  }

  /** Characters that are not whitespace pass through unchanged. */
  lemma {:induction false} WordKept(a: string, t: string)
    requires forall i :: 0 <= i < |a| ==> !IsWhiteSpace(a[i])
    ensures DashRuns(a + t) == a + DashRuns(t)
    decreases |a|
  {
    if a == [] {
      assert a + t == t;
    } else {
      var s := a + t;
      var c, tail := a[0], a[1..];
      assert s[0] == c && !IsWhiteSpace(c);
      assert s[1..] == tail + t;
      assert DashRuns(s) == [c] + DashRuns(tail + t);
      WordKept(tail, t);
      assert [c] + (tail + DashRuns(t)) == ([c] + tail) + DashRuns(t);
      assert [c] + tail == a;
    }
  }

  /** A leading run of whitespace becomes one dash. */
  lemma RunBecomesDash(w: string, b: string)
    requires w != [] && AllWhiteSpace(w)
    requires b == [] || !IsWhiteSpace(b[0])
    ensures DashRuns(w + b) == "-" + DashRuns(b)
  {
    var s := w + b;
    assert s[0] == w[0] && s[1..] == w[1..] + b;
    TrimStartRun(w[1..], b);
  }

  lemma {:induction false} TrimStartRun(w: string, b: string)
    requires AllWhiteSpace(w)
    requires b == [] || !IsWhiteSpace(b[0])
    ensures TrimStart(w + b) == b
    decreases |w|
  {
    if w == [] {
      assert w + b == b;
    } else {
      assert (w + b)[1..] == w[1..] + b;
      TrimStartRun(w[1..], b);
    }
  }

  /** `Array.from(new Set(xs))`: the first occurrence of each element, in order. */
  function Dedup(xs: seq<nat>): (r: seq<nat>)
    ensures forall x :: x in r <==> x in xs
    ensures NoDup(r)
    decreases |xs|
  {
    if xs == [] then []
    else
      var d := Dedup(xs[..|xs| - 1]);
      assert forall x :: x in xs <==> x in xs[..|xs| - 1] || x == xs[|xs| - 1];
      if xs[|xs| - 1] in d then d else d + [xs[|xs| - 1]]
  }

  predicate NoDup(xs: seq<nat>) {
    forall i, j :: 0 <= i < j < |xs| ==> xs[i] != xs[j]
  }

  /** `onError` of logo `idx`: `setFailedLogos(p => Array.from(new Set([...p, idx])))`. */
  function AddFailed(failed: seq<nat>, idx: nat): seq<nat> {
    Dedup(failed + [idx])
  }

  /** The logo image is shown while its index is not among the failed ones. */
  predicate LogoShown(failed: seq<nat>, idx: nat) {
    idx !in failed
  }

  /** A failure hides that logo only; a list without repeats gains the index
      at its end, once. */
  lemma AddFailedSpec(failed: seq<nat>, idx: nat)
    requires NoDup(failed)
    ensures !LogoShown(AddFailed(failed, idx), idx)
    ensures forall j :: j != idx ==> LogoShown(AddFailed(failed, idx), j) == LogoShown(failed, j)
    ensures AddFailed(failed, idx) == if idx in failed then failed else failed + [idx]
  {
    DedupNoDup(failed);
    assert (failed + [idx])[..|failed|] == failed;
  }

  lemma {:induction false} DedupNoDup(xs: seq<nat>)
    requires NoDup(xs)
    ensures Dedup(xs) == xs
    decreases |xs|
  {
    if xs != [] {
      DedupNoDup(xs[..|xs| - 1]);
      assert xs == xs[..|xs| - 1] + [xs[|xs| - 1]];
    }
  }

  // ---------------------------------------------------------------------------
  // Service blurb
  // ---------------------------------------------------------------------------

  const BlurbHead := "We offer "
  const BlurbTail := " as part of our consultation services."

  /** The line under each consultation service. */
  function Blurb(service: string): (r: string)
    ensures StartsWith(r, BlurbHead) && EndsWith(r, BlurbTail)
    ensures |r| == |BlurbHead| + |service| + |BlurbTail|
    ensures r[|BlurbHead|..|r| - |BlurbTail|] == Lower(service)
  {
    var r := BlurbHead + Lower(service) + BlurbTail;
    ConcatAffixes(BlurbHead + Lower(service), BlurbTail);
    assert r[..|BlurbHead|] == BlurbHead;
    r
  }

  /** Two services get the same blurb exactly when they lower-case alike. */
  lemma BlurbDistinguishes(a: string, b: string)
    ensures Blurb(a) == Blurb(b) <==> Lower(a) == Lower(b)
  {
  }
}
