/**
 * The achievements page of the admin area: the paged list fetched from
 * `/api/admin/Achievements`, the create/edit form and how it is packed for
 * submission, the request targets, the page-change guard and the
 * "Showing X to Y of Z" line.
 *
 * Every REST call is an oracle: a handler takes the outcome of its request
 * as a parameter. A search is modelled once the 500 ms debounce of the
 * search box has settled; `isLoading`, `isSubmitting`, the timing of the
 * debounce, scrolling and the animations are not modelled.
 */
module AchievementsAdmin {
  import opened Wrappers
  import opened JsText

  /** A stored achievement and its `_id`; `date` is the ISO text the API sends. */
  datatype Achievement = Achievement(id: string, title: string, description: string,
                                     studentName: string, date: string, photo: Option<string>)

  /** A file picked in the photo input. */
  datatype Photo = Photo(name: string, size: nat)

  /** The form's five fields; `photo` is `null` or a file. */
  datatype Form = Form(title: string, description: string, studentName: string, date: string, photo: Option<Photo>)

  const EmptyForm := Form("", "", "", "", None)

  /** What a form field holds, as `FormData.append` would see it. */
  datatype FormValue = Text(text: string) | File(file: Photo) | Null

  /** JavaScript truthiness of a field: a non-empty string or a file. */
  predicate IsFilled(entry: (string, FormValue)) {
    match entry.1
    case Text(s) => s != ""
    case File(_) => true
    case Null => false
  }

  /** The form's fields in the order `for...in` visits them. */
  function FormEntries(form: Form): seq<(string, FormValue)> {
    [ ("title", Text(form.title)),
      ("description", Text(form.description)),
      ("studentName", Text(form.studentName)),
      ("date", Text(form.date)),
      ("photo", if form.photo.Some? then File(form.photo.value) else Null) ]
  }

  /** The fields `handleSubmit` appends to the `FormData`: the truthy ones, in order. */
  function Packed(form: Form): seq<(string, FormValue)> {
    Filter(FormEntries(form), IsFilled)
  }

  /** A field is sent exactly when it is filled; an empty form sends nothing. */
  lemma PackedFields(form: Form)
    ensures ("title", Text(form.title)) in Packed(form) <==> form.title != ""
    ensures ("date", Text(form.date)) in Packed(form) <==> form.date != ""
    ensures form.photo.Some? ==> ("photo", File(form.photo.value)) in Packed(form)
    ensures form.photo.None? ==> forall i :: 0 <= i < |Packed(form)| ==> Packed(form)[i].0 != "photo"
    ensures Packed(EmptyForm) == []
  {
    var e := FormEntries(form);
    assert e[0] == ("title", Text(form.title));
    assert e[3] == ("date", Text(form.date));
    if form.photo.Some? {
      assert e[4] == ("photo", File(form.photo.value));
    }
    var empty := FormEntries(EmptyForm);
    assert Packed(EmptyForm) == Filter(empty, IsFilled);
    assert forall i :: 0 <= i < |empty| ==> !IsFilled(empty[i]);
    assert Filter(empty, IsFilled) == [] by {
      FilterNone(empty, IsFilled);
    }
  }

  lemma {:induction false} FilterNone<T>(xs: seq<T>, p: T -> bool)
    requires forall i :: 0 <= i < |xs| ==> !p(xs[i])
    ensures Filter(xs, p) == []
    decreases |xs|
  {
    if xs != [] {
      FilterNone(xs[1..], p);
    }
  }

  /** The `for...in` loop of `handleSubmit`. */
  method PackForm(form: Form) returns (data: seq<(string, FormValue)>)
    ensures data == Packed(form)
  {
    var entries := FormEntries(form);
    data := [];
    var i := 0;
    while i < |entries|
      invariant 0 <= i <= |entries|
      invariant data == Filter(entries[..i], IsFilled)
    {
      assert entries[..i + 1] == entries[..i] + [entries[i]];
      FilterAppend(entries[..i], [entries[i]], IsFilled);
      if IsFilled(entries[i]) {
        data := data + [entries[i]];
      }
      i := i + 1;
    }
    assert entries[..i] == entries;
  }

  // ---------------------------------------------------------------------------
  // Request targets
  // ---------------------------------------------------------------------------

  datatype Verb = Get | Post | Put | Delete

  /** The query every list fetch carries. */
  function ListQuery(page: int, limit: int): string {
    "/api/admin/Achievements?page=" + IntToString(page) + "&limit=" + IntToString(limit)
  }

  /** The list URL: page and limit always, `&name=` with the encoded name
      only for a non-empty name. */
  function FetchUrl(name: string, page: int, limit: int): (url: string)
    ensures StartsWith(url, ListQuery(page, limit))
    ensures url == ListQuery(page, limit) <==> name == ""
    ensures name != "" ==> EndsWith(url, "&name=" + EncodeUriComponent(name))
  {
    var base := ListQuery(page, limit);
    if name != "" then
      var tail := "&name=" + EncodeUriComponent(name);
      ConcatAffixes(base, tail);
      base + tail
    else base
  }

  /** The id of the achievement being edited, if it is truthy. */
  predicate Editing(editingId: Option<string>) {
    editingId.Some? && editingId.value != ""
  }

  /** Where `handleSubmit` sends the form: `PUT` to the record when editing,
      `POST` to the collection otherwise. */
  function SubmitTarget(editingId: Option<string>): (t: (Verb, string))
    ensures Editing(editingId) ==> t == (Put, "/api/admin/Achievements/" + editingId.value)
    ensures !Editing(editingId) ==> t == (Post, "/api/admin/Achievements")
  {
    if Editing(editingId) then (Put, "/api/admin/Achievements/" + editingId.value)
    else (Post, "/api/admin/Achievements")
  }

  /** `handleDelete`'s target. */
  function DeleteUrl(id: string): string {
    "/api/admin/achievements/" + id
  }

  /** The delete request spells the collection in lower case, so its path is
      never the path an update of the same record uses. */
  lemma DeletePathDiffersFromUpdate(id: string)
    requires id != ""
    ensures DeleteUrl(id) != SubmitTarget(Some(id)).1
  {
    assert DeleteUrl(id)[11] == 'a';
    assert SubmitTarget(Some(id)).1[11] == 'A';
  }

  /** The message set when a submission is refused. */
  function SubmitError(editingId: Option<string>): string {
    if Editing(editingId) then "Failed to update" else "Failed to create"
  }

  /** `date.split('T')[0]`. */
  function DatePrefix(date: string): string {
    Split(date, "T")[0]
  }

  /** The date prefix is the text before the first `T`, or all of it. */
  lemma DatePrefixSpec(date: string)
    ensures StartsWith(date, DatePrefix(date))
    ensures forall i :: 0 <= i < |DatePrefix(date)| ==> DatePrefix(date)[i] != 'T'
    ensures |DatePrefix(date)| < |date| ==> date[|DatePrefix(date)|] == 'T'
  {
    var r := DatePrefix(date);
    SplitHead(date, "T");
    forall i | 0 <= i < |r|
      ensures r[i] != 'T'
    {
      CharContained(r, i);
    }
    var f := FindFrom(date, "T", 0);
    if f.Some? {
      SplitStep(date, "T", f.value);
      assert date[f.value..f.value + 1] == "T";
    }
  }

  // ---------------------------------------------------------------------------
  // Pagination
  // ---------------------------------------------------------------------------

  datatype Pagination = Pagination(currentPage: int, totalPages: int, totalAchievements: int, limit: int)

  const InitialPagination := Pagination(1, 1, 0, 12)

  function Min(a: int, b: int): int {
    if a < b then a else b
  }

  /** The "Showing X to Y of Z" numbers. */
  function ShowingRange(p: Pagination): (int, int) {
    ((p.currentPage - 1) * p.limit + 1, Min(p.currentPage * p.limit, p.totalAchievements))
  }

  /** The pagination bar, and with it the range line, is shown only with
      more than one page. */
  predicate ShowsRange(p: Pagination) {
    p.totalPages > 1
  }

  /** On a page that holds records, the range lies within the records and
      counts the records on that page: a full page, or the rest on the last. */
  lemma ShowingRangeWithin(p: Pagination)
    requires p.limit > 0 && p.currentPage >= 1
    requires (p.currentPage - 1) * p.limit < p.totalAchievements
    ensures 1 <= ShowingRange(p).0 <= ShowingRange(p).1 <= p.totalAchievements
    ensures ShowingRange(p).1 - ShowingRange(p).0 + 1 == Min(p.limit, p.totalAchievements - (p.currentPage - 1) * p.limit)
  {
    var before := (p.currentPage - 1) * p.limit;
    assert p.currentPage * p.limit == before + p.limit;
  }

  /** With `ceil(total / limit)` pages, a page holds records exactly when it
      is between 1 and the page count. */
  lemma PageHoldsRecords(page: int, limit: int, total: int)
    requires limit > 0 && total > 0 && page >= 1
    ensures page <= (total + limit - 1) / limit <==> (page - 1) * limit < total
  {
    var q := (total + limit - 1) / limit;
    assert q * limit <= total + limit - 1 < (q + 1) * limit;
    if page <= q {
      MulMonotone(page - 1, q - 1, limit);
    } else {
      MulMonotone(q, page - 1, limit);
    }
  }

  lemma MulMonotone(a: int, b: int, k: int)
    requires a <= b && k >= 0
    ensures a * k <= b * k
  {
    assert b * k - a * k == (b - a) * k;
  }

  // ---------------------------------------------------------------------------
  // The page state
  // ---------------------------------------------------------------------------

  /** The body of a list response: the paged envelope, or a bare array. */
  datatype ListBody =
    | Paged(items: seq<Achievement>, totalPages: Option<int>, totalAchievements: Option<int>)
    | Bare(list: seq<Achievement>)

  /** What a list fetch comes back with: an error message, or a body. */
  datatype FetchOutcome = FetchFailed(message: string) | Fetched(body: ListBody)

  function ItemsOf(body: ListBody): seq<Achievement> {
    if body.Paged? then body.items else body.list
  }

  /** `x || fallback` on an optional number. */
  function OrElse(x: Option<int>, fallback: int): (r: int)
    ensures x.Some? && x.value != 0 ==> r == x.value
    ensures x.None? || x.value == 0 ==> r == fallback
  {
    if x.Some? && x.value != 0 then x.value else fallback
  }

  /** `data.totalPages || 1`. */
  function PagesOf(body: ListBody): int {
    if body.Paged? then OrElse(body.totalPages, 1) else 1
  }

  /** `data.totalAchievements || <length of the list>`. */
  function TotalOf(body: ListBody): int {
    if body.Paged? then OrElse(body.totalAchievements, |body.items|) else |body.list|
  }

  /** The list, the error and the page numbers after `fetchAchievements(_, page)`
      comes back with `outcome`: on success the list and the page numbers
      come from the body and the current page becomes `page`; on failure the
      list and the page numbers stay and the error is the failure's message. */
  function FetchEffect(items: seq<Achievement>, pag: Pagination, page: int, outcome: FetchOutcome)
    : (r: (seq<Achievement>, Option<string>, Pagination))
    ensures r.2.limit == pag.limit
    ensures outcome.Fetched? <==> r.1.None?
    ensures outcome.Fetched? ==> r.0 == ItemsOf(outcome.body) && r.2.currentPage == page
    ensures outcome.Fetched? ==> r.2.totalPages == PagesOf(outcome.body) && r.2.totalAchievements == TotalOf(outcome.body)
    ensures outcome.FetchFailed? ==> r == (items, Some(outcome.message), pag)
  {
    match outcome
    case FetchFailed(message) => (items, Some(message), pag)
    case Fetched(body) =>
      (ItemsOf(body), None, pag.(totalPages := PagesOf(body), totalAchievements := TotalOf(body), currentPage := page))
  }

  /** How a create, update or delete request ends: an ok response, a response
      that is not ok, or a `fetch` that throws with the given message. */
  datatype RequestOutcome = Ok | NotOk | Threw(message: string)

  /** The error a failed submission shows: the not-ok text, or the message of
      the thrown error. */
  function RequestError(request: RequestOutcome, notOk: string): (e: Option<string>)
    ensures request.Ok? <==> e.None?
    ensures request.NotOk? ==> e == Some(notOk)
    ensures request.Threw? ==> e == Some(request.message)
  {
    match request
    case Ok => None
    case NotOk => Some(notOk)
    case Threw(message) => Some(message)
  }

  class Admin {
    var achievements: seq<Achievement>
    var error: Option<string>
    var formData: Form
    var editingId: Option<string>
    var isFormOpen: bool
    var deleteConfirmId: Option<string>
    var searchTerm: string
    var pagination: Pagination

    constructor()
      ensures achievements == [] && error == None && formData == EmptyForm && editingId == None
      ensures !isFormOpen && deleteConfirmId == None && searchTerm == "" && pagination == InitialPagination
    {
      achievements := [];
      error := None;
      formData := EmptyForm;
      editingId := None;
      isFormOpen := false;
      deleteConfirmId := None;
      searchTerm := "";
      pagination := InitialPagination;
    }

    /** `fetchAchievements(name, page)`: on success the list and the page
        numbers are taken from the body and the current page becomes the
        requested one; on failure only the error is set. */
    method Fetch(name: string, page: int, outcome: FetchOutcome) returns (url: string)
      modifies this
      ensures url == FetchUrl(name, page, old(pagination.limit))
      ensures (achievements, error, pagination) == FetchEffect(old(achievements), old(pagination), page, outcome)
      ensures outcome.Fetched? ==> achievements == ItemsOf(outcome.body) && error == None
      ensures outcome.Fetched? ==> pagination == old(pagination).(totalPages := PagesOf(outcome.body),
                                                                   totalAchievements := TotalOf(outcome.body),
                                                                   currentPage := page)
      ensures outcome.FetchFailed? ==> achievements == old(achievements) && pagination == old(pagination)
      ensures outcome.FetchFailed? ==> error == Some(outcome.message)
      ensures formData == old(formData) && editingId == old(editingId) && isFormOpen == old(isFormOpen)
      ensures deleteConfirmId == old(deleteConfirmId) && searchTerm == old(searchTerm)
    {
      url := FetchUrl(name, page, pagination.limit);
      error := None;
      match outcome
      case FetchFailed(message) =>
        error := Some(message);
      case Fetched(body) =>
        achievements := ItemsOf(body);
        pagination := pagination.(totalPages := PagesOf(body), totalAchievements := TotalOf(body), currentPage := page);
    }

    /** The mount effect: the first page with no name. */
    method Mount(outcome: FetchOutcome) returns (url: string)
      modifies this
      ensures url == FetchUrl("", 1, old(pagination.limit))
      ensures (achievements, error, pagination) == FetchEffect(old(achievements), old(pagination), 1, outcome)
      ensures formData == old(formData) && editingId == old(editingId) && isFormOpen == old(isFormOpen)
      ensures deleteConfirmId == old(deleteConfirmId) && searchTerm == old(searchTerm)
    {
      url := Fetch("", 1, outcome);
    }

    /** The search box once its 500 ms debounce settles on `term`, and the
        Reset button with `term` empty: the term is kept and the first page
        of its matches is fetched. */
    method Search(term: string, outcome: FetchOutcome) returns (url: string)
      modifies this
      ensures searchTerm == term
      ensures url == FetchUrl(term, 1, old(pagination.limit))
      ensures (achievements, error, pagination) == FetchEffect(old(achievements), old(pagination), 1, outcome)
      ensures formData == old(formData) && editingId == old(editingId) && isFormOpen == old(isFormOpen)
      ensures deleteConfirmId == old(deleteConfirmId)
    {
      searchTerm := term;
      url := Fetch(term, 1, outcome);
    }

    /** `handlePageChange`: only a page between 1 and the page count is
        fetched, with the current search term. */
    method PageChange(newPage: int, outcome: FetchOutcome) returns (url: Option<string>)
      modifies this
      ensures url.Some? <==> 1 <= newPage <= old(pagination.totalPages)
      ensures url.Some? ==> url.value == FetchUrl(old(searchTerm), newPage, old(pagination.limit))
      ensures url.Some? ==> (achievements, error, pagination) == FetchEffect(old(achievements), old(pagination), newPage, outcome)
      ensures url.Some? && outcome.Fetched? ==> pagination.currentPage == newPage
      ensures url.None? ==> achievements == old(achievements) && pagination == old(pagination) && error == old(error)
      ensures formData == old(formData) && editingId == old(editingId) && isFormOpen == old(isFormOpen)
      ensures deleteConfirmId == old(deleteConfirmId) && searchTerm == old(searchTerm)
    {
      if newPage >= 1 && newPage <= pagination.totalPages {
        var u := Fetch(searchTerm, newPage, outcome);
        url := Some(u);
      } else {
        url := None;
      }
    }

    /** `resetForm`. */
    method ResetForm()
      modifies this
      ensures formData == EmptyForm && editingId == None && error == None
      ensures achievements == old(achievements) && pagination == old(pagination) && isFormOpen == old(isFormOpen)
      ensures deleteConfirmId == old(deleteConfirmId) && searchTerm == old(searchTerm)
    {
      formData := EmptyForm;
      editingId := None;
      error := None;
    }

    /** `handleEdit`: the form takes the record's text fields and the date
        up to its `T`, with no photo, and opens in edit mode. */
    method Edit(a: Achievement)
      modifies this
      ensures formData == Form(a.title, a.description, a.studentName, DatePrefix(a.date), None)
      ensures editingId == Some(a.id) && isFormOpen
      ensures achievements == old(achievements) && pagination == old(pagination) && error == old(error)
      ensures deleteConfirmId == old(deleteConfirmId) && searchTerm == old(searchTerm)
    {
      formData := Form(a.title, a.description, a.studentName, DatePrefix(a.date), None);
      editingId := Some(a.id);
      isFormOpen := true;
    }

    /** `handleSubmit`: the packed fields go to the submit target. An ok
        response refetches the page being viewed with the current search
        term, then clears the form (and with it any error of the refetch)
        and closes it; any other outcome only sets the error. */
    method Submit(request: RequestOutcome, refetch: FetchOutcome)
      returns (data: seq<(string, FormValue)>, verb: Verb, url: string, refetchUrl: Option<string>)
      modifies this
      ensures data == Packed(old(formData))
      ensures (verb, url) == SubmitTarget(old(editingId))
      ensures !request.Ok? ==> refetchUrl.None? && error == RequestError(request, SubmitError(old(editingId)))
      ensures !request.Ok? ==> formData == old(formData) && editingId == old(editingId) && isFormOpen == old(isFormOpen)
      ensures !request.Ok? ==> achievements == old(achievements) && pagination == old(pagination)
      ensures request.Ok? ==> refetchUrl == Some(FetchUrl(old(searchTerm), old(pagination.currentPage), old(pagination.limit)))
      ensures request.Ok? ==> formData == EmptyForm && editingId == None && !isFormOpen && error == None
      ensures request.Ok? ==> achievements == FetchEffect(old(achievements), old(pagination), old(pagination.currentPage), refetch).0
      ensures request.Ok? ==> pagination == FetchEffect(old(achievements), old(pagination), old(pagination.currentPage), refetch).2
      ensures deleteConfirmId == old(deleteConfirmId) && searchTerm == old(searchTerm)
    {
      data := PackForm(formData);
      var target := SubmitTarget(editingId);
      verb, url := target.0, target.1;
      if request.Ok? {
        var u := Saved(refetch);
        refetchUrl := Some(u);
      } else {
        error := RequestError(request, SubmitError(editingId));
        refetchUrl := None;
      }
    }

    /** What follows an ok submission: refetch the page being viewed, clear
        the form, close it. */
    method Saved(refetch: FetchOutcome) returns (url: string)
      modifies this
      ensures url == FetchUrl(old(searchTerm), old(pagination.currentPage), old(pagination.limit))
      ensures formData == EmptyForm && editingId == None && !isFormOpen && error == None
      ensures achievements == FetchEffect(old(achievements), old(pagination), old(pagination.currentPage), refetch).0
      ensures pagination == FetchEffect(old(achievements), old(pagination), old(pagination.currentPage), refetch).2
      ensures deleteConfirmId == old(deleteConfirmId) && searchTerm == old(searchTerm)
    {
      url := Fetch(searchTerm, pagination.currentPage, refetch);
      ResetForm();
      isFormOpen := false;
    }

    /** `handleDelete`: an ok response refetches the page being viewed with
        the current search term; any other outcome sets the error. The
        confirmation closes either way. */
    method Remove(id: string, request: RequestOutcome, refetch: FetchOutcome)
      returns (url: string, refetchUrl: Option<string>)
      modifies this
      ensures url == DeleteUrl(id)
      ensures deleteConfirmId == None
      ensures !request.Ok? ==> refetchUrl.None? && error == RequestError(request, "Failed to delete")
      ensures !request.Ok? ==> achievements == old(achievements) && pagination == old(pagination)
      ensures request.Ok? ==> refetchUrl == Some(FetchUrl(old(searchTerm), old(pagination.currentPage), old(pagination.limit)))
      ensures request.Ok? ==>
        (achievements, error, pagination) == FetchEffect(old(achievements), old(pagination), old(pagination.currentPage), refetch)
      ensures formData == old(formData) && editingId == old(editingId) && isFormOpen == old(isFormOpen)
      ensures searchTerm == old(searchTerm)
    {
      url := DeleteUrl(id);
      if request.Ok? {
        var u := Fetch(searchTerm, pagination.currentPage, refetch);
        refetchUrl := Some(u);
      } else {
        error := RequestError(request, "Failed to delete");
        refetchUrl := None;
      }
      deleteConfirmId := None;
    }
  }
}
