/** The to-do request handlers over a store of rows keyed by id: the paged
    list with its statistics, create, edit, delete and the status toggle.
    Each handler is a pure step on `Store` (its specification) and a method
    of `TodoDatabase` that performs it in place. */
module TodoViews {
  import opened Common
  import opened TodoModels
  import opened TodoForms

  /** The request verb. `OtherMethod` stands for PATCH, TRACE and any verb
      Django does not dispatch. */
  datatype HttpMethod = Get | Head | Post | Put | Delete | Options | OtherMethod

  /** The verbs each class-based view has a handler for, as its `Allow`
      header lists them: the list view has `get`; the create and update views
      have `get`, `post` and `put`; the delete view has `get`, `post` and
      `delete`. Every view also answers HEAD with its `get` handler and has
      `options`. */
  const ListMethods: set<HttpMethod> := {Get, Head, Options}
  const FormMethods: set<HttpMethod> := {Get, Head, Post, Put, Options}
  const DeleteMethods: set<HttpMethod> := {Get, Head, Post, Delete, Options}

  /** `paginate_by` of the list view. */
  const PageSize: nat := 10

  /** The `page` query parameter, already read: absent, an integer, the word
      "last", or anything else. */
  datatype PageRequest = NoPage | PageNumber(n: int) | LastPage | NotANumber

  datatype ListContext = ListContext(
    todos: seq<Todo>,
    pageNumber: int,
    numPages: nat,
    totalCount: nat,
    completedCount: nat,
    pendingCount: nat)

  datatype Response =
    | ListPage(context: ListContext)
    | EmptyForm                                      // GET of the create page
    | EditForm(todo: Todo)                           // GET of the edit page
    | ConfirmDelete(todo: Todo)                      // GET of the delete page
    | InvalidForm(errors: map<Field, seq<FieldError>>)
    | RedirectToList
    | ToggleJson(success: bool, isResolved: bool, message: string)
    | NotFound
    | MethodNotAllowed
    | OptionsAllowed(allow: set<HttpMethod>)       // OPTIONS: an empty 200 with `Allow`

  /** The HTTP status of a response. */
  function Status(r: Response): nat
  {
    match r
    case RedirectToList => 302
    case NotFound => 404
    case MethodNotAllowed => 405
    case _ => 200
  }

  /** The rows and the next id the database hands out. */
  datatype Store = Store(rows: map<nat, Todo>, nextId: nat)

  datatype Outcome = Outcome(store: Store, response: Response)

  /** Every row sits under its own id, ids are positive and below the
      counter, so the counter never names an existing row, and no row was
      updated before it was created. */
  ghost predicate StoreInvariant(s: Store)
  {
    && s.nextId >= 1
    && forall k :: k in s.rows ==>
         0 < k < s.nextId && s.rows[k].id == k && s.rows[k].createdAt <= s.rows[k].updatedAt
  }

  /** The clock reads `now` no earlier than any row's last update. */
  ghost predicate ClockNotBefore(s: Store, now: DateTime)
  {
    forall k :: k in s.rows ==> s.rows[k].updatedAt <= now
  }

  const EmptyStore := Store(map[], 1)

  // ---------------------------------------------------------------------
  // The list page
  // ---------------------------------------------------------------------

  /** The ids below `n` that hold a row. */
  ghost function KeysBelow(rows: map<nat, Todo>, n: nat): set<nat>
  {
    set k | k in rows && k < n
  }

  /** Raising the bound by one adds the id just below it, if it holds a row. */
  lemma KeysBelowStep(rows: map<nat, Todo>, n: nat)
    requires n > 0
    ensures |KeysBelow(rows, n)| == |KeysBelow(rows, n - 1)| + if n - 1 in rows then 1 else 0
  {
    var prev := KeysBelow(rows, n - 1);
    assert n - 1 !in prev;
    if n - 1 in rows {
      assert KeysBelow(rows, n) == prev + {n - 1};
    } else {
      assert KeysBelow(rows, n) == prev;
    }
  }

  /** The rows with ids below `n`, in id order. */
  function RowsBelow(rows: map<nat, Todo>, n: nat): (r: seq<Todo>)
    ensures |r| == |KeysBelow(rows, n)|
    ensures forall k :: k in rows && k < n ==> rows[k] in r
    ensures forall t :: t in r ==> t in rows.Values
  {
    if n == 0 then
      assert KeysBelow(rows, 0) == {};
      []
    else
      var prev := RowsBelow(rows, n - 1);
      KeysBelowStep(rows, n);
      if n - 1 in rows then
        assert rows[n - 1] in rows.Values;
        prev + [rows[n - 1]]
      else
        prev
  }

  /** Every stored row, newest creation time first. */
  function Listing(s: Store): seq<Todo>
  {
    OrderedNewestFirst(RowsBelow(s.rows, s.nextId))
  }

  /** The listing holds exactly the stored rows, once each, newest first. */
  lemma ListingIsStore(s: Store)
    requires StoreInvariant(s)
    ensures NewestFirst(Listing(s))
    ensures |Listing(s)| == |s.rows|
    ensures forall k :: k in s.rows ==> s.rows[k] in Listing(s)
    ensures forall t :: t in Listing(s) ==> t.id in s.rows && s.rows[t.id] == t
  {
    var below := RowsBelow(s.rows, s.nextId);
    assert KeysBelow(s.rows, s.nextId) == s.rows.Keys;
    forall k | k in s.rows ensures s.rows[k] in Listing(s) {
      assert s.rows[k] in multiset(below);
    }
    forall t | t in Listing(s) ensures t.id in s.rows && s.rows[t.id] == t {
      assert t in multiset(below);
      assert t in s.rows.Values;
      var k :| k in s.rows && s.rows[k] == t;
    }
  }

  /** Pages of the paginator: at least one, even for an empty store. */
  function NumPages(count: nat): (p: nat)
    ensures p >= 1
    ensures (p - 1) * PageSize < count || (count == 0 && p == 1)
    ensures count <= p * PageSize
  {
    if count == 0 then 1 else (count + PageSize - 1) / PageSize
  }

  /** Page `number` of `all`: the rows at positions `(number - 1) * 10` up to,
      but not including, `number * 10`, cut off at the end of `all`. */
  function PageSlice(all: seq<Todo>, number: int): (r: seq<Todo>)
    requires 1 <= number <= NumPages(|all|)
    ensures |r| <= PageSize
    ensures |r| == if number * PageSize <= |all| then PageSize else |all| - (number - 1) * PageSize
    ensures forall i :: 0 <= i < |r| ==> r[i] == all[(number - 1) * PageSize + i]
  {
    var lo := (number - 1) * PageSize;
    var hi := if number * PageSize < |all| then number * PageSize else |all|;
    all[lo..hi]
  }

  /** A page of a newest-first listing is newest first. */
  lemma PageSliceNewestFirst(all: seq<Todo>, number: int)
    requires 1 <= number <= NumPages(|all|)
    requires NewestFirst(all)
    ensures NewestFirst(PageSlice(all, number))
  {
    var r := PageSlice(all, number);
    forall i, j | 0 <= i < j < |r| ensures r[i].createdAt >= r[j].createdAt {
      assert r[i] == all[(number - 1) * PageSize + i];
      assert r[j] == all[(number - 1) * PageSize + j];
    }
  }

  /** `Todo.objects.count()`, and the same restricted to resolved and to
      pending rows. */
  function CountAll(s: Store): nat { |s.rows| }
  function CountResolved(s: Store, resolved: bool): nat
  {
    |set k | k in s.rows && s.rows[k].isResolved == resolved|
  }

  /** The page number a request asks for: the first page when none is
      given, the last for "last", and 0 (never a page) for a value that is
      not a number. */
  function RequestedPage(page: PageRequest, pages: nat): int
  {
    match page
    case NoPage => 1
    case PageNumber(n) => n
    case LastPage => pages
    case NotANumber => 0
  }

  /** The GET handler of the list view. */
  function PageResponse(s: Store, page: PageRequest): (r: Response)
    ensures r.ListPage? || r.NotFound?
  {
    var all := Listing(s);
    var pages := NumPages(|all|);
    var number := RequestedPage(page, pages);
    if number < 1 || number > pages then NotFound
    else
      ListPage(ListContext(
        PageSlice(all, number), number, pages,
        CountAll(s), CountResolved(s, true), CountResolved(s, false)))
  }

  /** The list view. GET (and HEAD) answer the requested page of the
      newest-first listing, at most ten rows, with the counts; a page that is
      not a number, below 1 or past the last page is 404, and "last" names
      the last page. OPTIONS answers the allowed verbs; any other verb is
      405. The store never changes. */
  function ListStep(s: Store, verb: HttpMethod, page: PageRequest): (o: Outcome)
    ensures o.store == s
    ensures Status(o.response) != 302
  {
    match verb
    case Get | Head => Outcome(s, PageResponse(s, page))
    case Options => Outcome(s, OptionsAllowed(ListMethods))
    case _ => Outcome(s, MethodNotAllowed)
  }

  /** The count of all rows is the count of resolved plus pending ones. */
  lemma CountsAddUp(s: Store)
    ensures CountAll(s) == CountResolved(s, true) + CountResolved(s, false)
  {
    var done := set k | k in s.rows && s.rows[k].isResolved == true;
    var open := set k | k in s.rows && s.rows[k].isResolved == false;
    assert s.rows.Keys == done + open;
    assert done * open == {};
  }

  /** The first page always exists; a page that is not a number, below 1
      or past the last page is 404; the list never changes the store. */
  lemma ListPageFound(s: Store, page: PageRequest)
    requires StoreInvariant(s)
    ensures ListStep(s, Get, page).store == s
    ensures page == NoPage || page == LastPage ==> ListStep(s, Get, page).response.ListPage?
    ensures ListStep(s, Get, page).response.NotFound? <==>
      page == NotANumber || (page.PageNumber? && (page.n < 1 || page.n > NumPages(|s.rows|)))
    ensures ListStep(s, Get, page).response.ListPage? || ListStep(s, Get, page).response.NotFound?
  {
    ListingIsStore(s);
  }

  /** A list page is newest first, holds at most ten rows, is the slice of
      the listing its page number names, and carries counts that add up to
      the number of rows. */
  lemma ListPageContents(s: Store, page: PageRequest)
    requires StoreInvariant(s)
    requires ListStep(s, Get, page).response.ListPage?
    ensures var c := ListStep(s, Get, page).response.context;
      && NewestFirst(c.todos)
      && |c.todos| <= PageSize
      && 1 <= c.pageNumber <= c.numPages == NumPages(|s.rows|)
      && c.todos == PageSlice(Listing(s), c.pageNumber)
      && c.totalCount == |s.rows|
      && c.totalCount == c.completedCount + c.pendingCount
  {
    ListingIsStore(s);
    CountsAddUp(s);
    var c := ListStep(s, Get, page).response.context;
    PageSliceNewestFirst(Listing(s), c.pageNumber);
  }

  // ---------------------------------------------------------------------
  // Create, edit, delete, toggle
  // ---------------------------------------------------------------------

  /** The row a valid create form saves: the cleaned values under the next
      id, both timestamps at `now`. A blank description is stored as the
      empty string. */
  function NewRow(id: nat, d: CleanedData, now: DateTime): Todo
  {
    Todo(id, d.title, Some(d.description), d.dueDate, d.isResolved, now, now)
  }

  /** The row a valid edit form saves: the four form fields overwritten,
      `updated_at` moved to `now`. */
  function EditedRow(t: Todo, d: CleanedData, now: DateTime): Todo
  {
    Save(t.(title := d.title, description := Some(d.description),
            dueDate := d.dueDate, isResolved := d.isResolved), now)
  }

  /** The data a submission binds the form to: the POST body for POST and
      nothing for any other verb, since Django parses a request body into
      `request.POST` for POST requests only. */
  function BoundData(verb: HttpMethod, data: FormInput): (bound: FormInput)
    ensures verb != Post ==> bound == map[]
    ensures verb == Post ==> bound == data
  {
    if verb == Post then data else map[]
  }

  /** The create view, given the outcome of validating the bound data. GET
      and HEAD show the empty form; POST and PUT (which the view hands to its
      POST handler) save a valid form and redirect, or show an invalid one
      with its errors; OPTIONS lists the allowed verbs; any other verb is
      405. Only a saved form changes the store, and it only adds a row. */
  function CreateStep(s: Store, verb: HttpMethod, form: FormResult, now: DateTime): (o: Outcome)
    ensures o.store == s || o.response == RedirectToList
    ensures o.response == RedirectToList ==> (verb == Post || verb == Put) && form.Valid?
    ensures s.rows.Keys <= o.store.rows.Keys
  {
    match verb
    case Get | Head => Outcome(s, EmptyForm)
    case Options => Outcome(s, OptionsAllowed(FormMethods))
    case Post | Put =>
      (match form
       case Invalid(errors) => Outcome(s, InvalidForm(errors))
       case Valid(d) =>
         Outcome(Store(s.rows[s.nextId := NewRow(s.nextId, d, now)], s.nextId + 1), RedirectToList))
    case _ => Outcome(s, MethodNotAllowed)
  }

  /** The update view, given the outcome of validating the bound data. The
      verb is dispatched before the row is looked up: OPTIONS answers the
      allowed verbs and DELETE and other verbs are 405 whether or not the row
      exists. A missing row is then 404; GET and HEAD show the filled form;
      POST and PUT save a valid form and redirect, or show an invalid one.
      No row is added or removed, and only a saved form changes one. */
  function EditStep(s: Store, pk: nat, verb: HttpMethod, form: FormResult, now: DateTime): (o: Outcome)
    ensures o.store == s || o.response == RedirectToList
    ensures o.store.rows.Keys == s.rows.Keys && o.store.nextId == s.nextId
  {
    match verb
    case Options => Outcome(s, OptionsAllowed(FormMethods))
    case Delete | OtherMethod => Outcome(s, MethodNotAllowed)
    case Get | Head =>
      if pk !in s.rows then Outcome(s, NotFound) else Outcome(s, EditForm(s.rows[pk]))
    case Post | Put =>
      if pk !in s.rows then Outcome(s, NotFound)
      else
        match form
        case Invalid(errors) => Outcome(s, InvalidForm(errors))
        case Valid(d) =>
          Outcome(s.(rows := s.rows[pk := EditedRow(s.rows[pk], d, now)]), RedirectToList)
  }

  /** The delete view: OPTIONS answers the allowed verbs and PUT and other
      verbs are 405; then a missing row is 404, GET and HEAD show the
      confirmation page, and POST and DELETE remove the row and redirect. No
      row is added or changed. */
  function DeleteStep(s: Store, pk: nat, verb: HttpMethod): (o: Outcome)
    ensures o.store == s || o.response == RedirectToList
    ensures o.store.rows.Keys <= s.rows.Keys && o.store.nextId == s.nextId
    ensures forall k :: k in o.store.rows ==> o.store.rows[k] == s.rows[k]
  {
    match verb
    case Options => Outcome(s, OptionsAllowed(DeleteMethods))
    case Put | OtherMethod => Outcome(s, MethodNotAllowed)
    case Get | Head =>
      if pk !in s.rows then Outcome(s, NotFound) else Outcome(s, ConfirmDelete(s.rows[pk]))
    case Post | Delete =>
      if pk !in s.rows then Outcome(s, NotFound) else Outcome(s.(rows := s.rows - {pk}), RedirectToList)
  }

  /** The toggle endpoint's message for the new status. */
  function ToggleMessage(resolved: bool): string
  {
    "TODO marked as " + (if resolved then "completed" else "pending")
  }

  /** The toggle endpoint, which accepts POST only: any other verb is 405
      before the row is looked up, a missing row is 404, and otherwise the
      row's status flips and the answer is the JSON report of the new status.
      No row is added or removed, and only a success changes one. */
  function ToggleStep(s: Store, pk: nat, verb: HttpMethod, now: DateTime): (o: Outcome)
    ensures o.store == s || o.response.ToggleJson?
    ensures o.store.rows.Keys == s.rows.Keys && o.store.nextId == s.nextId
  {
    if verb != Post then Outcome(s, MethodNotAllowed)
    else if pk !in s.rows then Outcome(s, NotFound)
    else
      var t := Save(s.rows[pk].(isResolved := !s.rows[pk].isResolved), now);
      Outcome(s.(rows := s.rows[pk := t]), ToggleJson(true, t.isResolved, ToggleMessage(t.isResolved)))
  }

  // ---------------------------------------------------------------------
  // Properties of the steps
  // ---------------------------------------------------------------------

  /** Every handler that writes keeps the store invariant; edit and toggle
      need a clock that has not run backward since the last update, so that
      `updated_at` stays no earlier than `created_at`. */
  lemma CreateKeepsInvariant(s: Store, verb: HttpMethod, form: FormResult, now: DateTime)
    requires StoreInvariant(s)
    ensures StoreInvariant(CreateStep(s, verb, form, now).store)
  {
  }

  lemma EditKeepsInvariant(s: Store, pk: nat, verb: HttpMethod, form: FormResult, now: DateTime)
    requires StoreInvariant(s) && ClockNotBefore(s, now)
    ensures StoreInvariant(EditStep(s, pk, verb, form, now).store)
  {
  }

  lemma DeleteKeepsInvariant(s: Store, pk: nat, verb: HttpMethod)
    requires StoreInvariant(s)
    ensures StoreInvariant(DeleteStep(s, pk, verb).store)
  {
  }

  lemma ToggleKeepsInvariant(s: Store, pk: nat, verb: HttpMethod, now: DateTime)
    requires StoreInvariant(s) && ClockNotBefore(s, now)
    ensures StoreInvariant(ToggleStep(s, pk, verb, now).store)
  {
  }

  /** A view answers 405 exactly for the verbs its `Allow` header leaves
      out; OPTIONS answers that header and changes nothing. For the update
      and delete views this holds whether or not the row exists. */
  lemma DispatchMatchesAllow(s: Store, pk: nat, verb: HttpMethod, page: PageRequest,
                             form: FormResult, now: DateTime)
    ensures ListStep(s, verb, page).response == MethodNotAllowed <==> verb !in ListMethods
    ensures CreateStep(s, verb, form, now).response == MethodNotAllowed <==> verb !in FormMethods
    ensures EditStep(s, pk, verb, form, now).response == MethodNotAllowed <==> verb !in FormMethods
    ensures DeleteStep(s, pk, verb).response == MethodNotAllowed <==> verb !in DeleteMethods
    ensures verb == Options ==>
      && ListStep(s, verb, page) == Outcome(s, OptionsAllowed(ListMethods))
      && CreateStep(s, verb, form, now) == Outcome(s, OptionsAllowed(FormMethods))
      && EditStep(s, pk, verb, form, now) == Outcome(s, OptionsAllowed(FormMethods))
      && DeleteStep(s, pk, verb) == Outcome(s, OptionsAllowed(DeleteMethods))
  {
  }

  /** HEAD is answered by each view's GET handler. */
  lemma HeadIsGet(s: Store, pk: nat, page: PageRequest, form: FormResult, now: DateTime)
    ensures ListStep(s, Head, page) == ListStep(s, Get, page)
    ensures CreateStep(s, Head, form, now) == CreateStep(s, Get, form, now)
    ensures EditStep(s, pk, Head, form, now) == EditStep(s, pk, Get, form, now)
    ensures DeleteStep(s, pk, Head) == DeleteStep(s, pk, Get)
  {
  }

  /** PUT reaches the POST handler of the create and update views, but with
      nothing bound to the form: the title is missing, so the page is shown
      again with "required" on the title (404 first for an update of a
      missing row), and nothing is stored. */
  lemma PutSubmitsNothing(s: Store, pk: nat, data: FormInput,
                          parseDate: string -> Option<Date>, now: DateTime)
    ensures var form := Validate(BoundData(Put, data), parseDate);
      && form.Invalid? && Title in form.errors && form.errors[Title] == [Required]
      && CreateStep(s, Put, form, now) == Outcome(s, InvalidForm(form.errors))
      && EditStep(s, pk, Put, form, now)
         == if pk in s.rows then Outcome(s, InvalidForm(form.errors)) else Outcome(s, NotFound)
  {
    BlankTitleRejected(map[], parseDate);
  }

  /** An HTTP DELETE on the delete view does what its POST does. */
  lemma DeleteVerbIsPost(s: Store, pk: nat)
    ensures DeleteStep(s, pk, Delete) == DeleteStep(s, pk, Post)
  {
  }

  /** A valid create adds exactly one row, under a fresh id, carrying the
      submitted title, description, due date and status, and redirects to
      the list; no other row changes. */
  lemma ValidCreateAddsOne(s: Store, d: CleanedData, now: DateTime)
    requires StoreInvariant(s)
    ensures var o := CreateStep(s, Post, Valid(d), now);
      && o.response == RedirectToList && Status(o.response) == 302
      && s.nextId !in s.rows
      && o.store.rows.Keys == s.rows.Keys + {s.nextId}
      && |o.store.rows| == |s.rows| + 1
      && (forall k :: k in s.rows ==> o.store.rows[k] == s.rows[k])
      && var t := o.store.rows[s.nextId];
         t.id == s.nextId && t.title == d.title && t.description == Some(d.description)
         && t.dueDate == d.dueDate && t.isResolved == d.isResolved
         && t.createdAt == now && t.updatedAt == now
  {
  }

  /** Saving a valid submission creates one row whose title and description
      are the submitted ones stripped of surrounding whitespace and whose
      status is the check box's reading; a box sent as "True" is stored as
      resolved. */
  lemma CreateFromSubmission(s: Store, data: FormInput, parseDate: string -> Option<Date>, now: DateTime)
    requires StoreInvariant(s)
    requires Validate(data, parseDate).Valid?
    ensures var o := CreateStep(s, Post, Validate(data, parseDate), now);
      var t := o.store.rows[s.nextId];
      && |o.store.rows| == |s.rows| + 1
      && t.title == CleanText(Lookup(data, "title"))
      && t.description == Some(CleanText(Lookup(data, "description")))
      && t.isResolved == CheckboxValue(Lookup(data, "is_resolved"))
      && (Lookup(data, "is_resolved") == Some("True") ==> t.isResolved)
  {
    ValidCreateAddsOne(s, Validate(data, parseDate).data, now);
    CheckboxReadings();
  }

  /** An invalid create re-renders the form (status 200) with its errors and
      adds nothing. */
  lemma InvalidCreateAddsNothing(s: Store, errors: map<Field, seq<FieldError>>, now: DateTime)
    ensures var o := CreateStep(s, Post, Invalid(errors), now);
      o.store == s && o.response == InvalidForm(errors)
      && Status(o.response) == 200
  {
  }

  /** A valid edit overwrites the form fields of the named row, keeps its id
      and `created_at`, stamps `updated_at` and redirects; other rows are
      untouched. An invalid edit changes nothing. */
  lemma EditSpec(s: Store, pk: nat, form: FormResult, now: DateTime)
    requires pk in s.rows
    ensures var o := EditStep(s, pk, Post, form, now);
      match form
      case Invalid(errors) => o.store == s && o.response == InvalidForm(errors)
      case Valid(d) =>
        && o.response == RedirectToList
        && o.store.nextId == s.nextId
        && o.store.rows.Keys == s.rows.Keys
        && (forall k :: k in s.rows && k != pk ==> o.store.rows[k] == s.rows[k])
        && var t := o.store.rows[pk];
           t.id == s.rows[pk].id && t.createdAt == s.rows[pk].createdAt && t.updatedAt == now
           && t.title == d.title && t.description == Some(d.description)
           && t.dueDate == d.dueDate && t.isResolved == d.isResolved
  {
  }

  /** Edit, delete and toggle of an id with no row answer 404 and change
      nothing, for every verb the view dispatches to a handler that looks the
      row up. */
  lemma MissingIdNotFound(s: Store, pk: nat, verb: HttpMethod, form: FormResult, now: DateTime)
    requires pk !in s.rows
    ensures verb in FormMethods - {Options} ==> EditStep(s, pk, verb, form, now) == Outcome(s, NotFound)
    ensures verb in DeleteMethods - {Options} ==> DeleteStep(s, pk, verb) == Outcome(s, NotFound)
    ensures verb == Post ==> ToggleStep(s, pk, verb, now) == Outcome(s, NotFound)
  {
  }

  /** A delete by POST or DELETE removes exactly the named row and
      redirects. */
  lemma DeleteRemoves(s: Store, pk: nat, verb: HttpMethod)
    requires pk in s.rows
    requires verb == Post || verb == Delete
    ensures var o := DeleteStep(s, pk, verb);
      && o.response == RedirectToList
      && o.store.rows.Keys == s.rows.Keys - {pk}
      && |o.store.rows| == |s.rows| - 1
      && (forall k :: k in o.store.rows ==> o.store.rows[k] == s.rows[k])
  {
    assert s.rows.Keys == (s.rows.Keys - {pk}) + {pk};
  }

  /** Toggle accepts POST only: anything else answers 405 and changes
      nothing, before the id is even looked up. */
  lemma ToggleRequiresPost(s: Store, pk: nat, verb: HttpMethod, now: DateTime)
    requires verb != Post
    ensures ToggleStep(s, pk, verb, now) == Outcome(s, MethodNotAllowed)
    ensures Status(ToggleStep(s, pk, verb, now).response) == 405
  {
  }

  /** A toggle flips the status of exactly the named row (stamping its
      `updated_at`) and answers success with the new status and the message
      naming it. */
  lemma ToggleFlips(s: Store, pk: nat, now: DateTime)
    requires pk in s.rows
    ensures var o := ToggleStep(s, pk, Post, now);
      && o.store.rows.Keys == s.rows.Keys && o.store.nextId == s.nextId
      && o.store.rows[pk] == s.rows[pk].(isResolved := !s.rows[pk].isResolved, updatedAt := now)
      && (forall k :: k in s.rows && k != pk ==> o.store.rows[k] == s.rows[k])
      && o.response.ToggleJson?
      && o.response.success
      && o.response.isResolved == !s.rows[pk].isResolved
      && (o.response.message == "TODO marked as completed" <==> o.response.isResolved)
      && (o.response.message == "TODO marked as pending" <==> !o.response.isResolved)
  {
    var m := ToggleStep(s, pk, Post, now).response.message;
    assert "TODO marked as completed" != "TODO marked as pending" by {
      assert "TODO marked as completed"[15] != "TODO marked as pending"[15];
    }
  }

  /** Two toggles restore the status; only `updated_at` differs. */
  lemma ToggleTwiceRestores(s: Store, pk: nat, now1: DateTime, now2: DateTime)
    requires pk in s.rows
    ensures var o1 := ToggleStep(s, pk, Post, now1);
      var o2 := ToggleStep(o1.store, pk, Post, now2);
      o2.store == s.(rows := s.rows[pk := s.rows[pk].(updatedAt := now2)])
  {
    ToggleFlips(s, pk, now1);
  }

  // ---------------------------------------------------------------------
  // The database, changed in place
  // ---------------------------------------------------------------------

  class TodoDatabase {
    var rows: map<nat, Todo>
    var nextId: nat

    function State(): Store
      reads this
    {
      Store(rows, nextId)
    }

    ghost predicate Valid()
      reads this
    {
      StoreInvariant(State())
    }

    /** An empty table whose first id is 1. */
    constructor ()
      ensures State() == EmptyStore && Valid()
    {
      rows := map[];
      nextId := 1;
    }

    method List(verb: HttpMethod, page: PageRequest) returns (r: Response)
      requires Valid()
      ensures r == ListStep(State(), verb, page).response
    {
      if verb == Options {
        return OptionsAllowed(ListMethods);
      } else if verb != Get && verb != Head {
        return MethodNotAllowed;
      }
      var all := Listing(State());
      var pages := NumPages(|all|);
      var number := RequestedPage(page, pages);
      if number < 1 || number > pages {
        return NotFound;
      }
      r := ListPage(ListContext(PageSlice(all, number), number, pages, |rows|,
                                CountResolved(State(), true), CountResolved(State(), false)));
    }

    /** The create view: the submission is bound (for POST only), validated,
        and handed on. */
    method Create(verb: HttpMethod, data: FormInput, parseDate: string -> Option<Date>, now: DateTime)
      returns (r: Response)
      requires Valid()
      modifies this
      ensures Valid()
      ensures Outcome(State(), r) == CreateStep(old(State()), verb, Validate(BoundData(verb, data), parseDate), now)
    {
      r := CreateFrom(verb, Validate(BoundData(verb, data), parseDate), now);
    }

    /** The create view once the submission has been validated. */
    method CreateFrom(verb: HttpMethod, form: FormResult, now: DateTime) returns (r: Response)
      requires Valid()
      modifies this
      ensures Valid()
      ensures Outcome(State(), r) == CreateStep(old(State()), verb, form, now)
    {
      ghost var before := State();
      match verb {
        case Get | Head => return EmptyForm;
        case Options => return OptionsAllowed(FormMethods);
        case Delete | OtherMethod => return MethodNotAllowed;
        case Post | Put =>
      }
      if form.Invalid? {
        return InvalidForm(form.errors);
      }
      rows := rows[nextId := NewRow(nextId, form.data, now)];
      nextId := nextId + 1;
      r := RedirectToList;
      CreateKeepsInvariant(before, verb, form, now);
    }

    /** The update view: the submission is bound (for POST only), validated,
        and handed on. */
    method Edit(pk: nat, verb: HttpMethod, data: FormInput, parseDate: string -> Option<Date>, now: DateTime)
      returns (r: Response)
      requires Valid() && ClockNotBefore(State(), now)
      modifies this
      ensures Valid()
      ensures Outcome(State(), r) == EditStep(old(State()), pk, verb, Validate(BoundData(verb, data), parseDate), now)
    {
      r := EditFrom(pk, verb, Validate(BoundData(verb, data), parseDate), now);
    }

    /** The update view once the submission has been validated. */
    method EditFrom(pk: nat, verb: HttpMethod, form: FormResult, now: DateTime) returns (r: Response)
      requires Valid() && ClockNotBefore(State(), now)
      modifies this
      ensures Valid()
      ensures Outcome(State(), r) == EditStep(old(State()), pk, verb, form, now)
    {
      ghost var before := State();
      if verb == Options {
        return OptionsAllowed(FormMethods);
      } else if verb.Delete? || verb == OtherMethod {
        return MethodNotAllowed;
      }
      if pk !in rows {
        return NotFound;
      }
      if verb == Get || verb == Head {
        return EditForm(rows[pk]);
      }
      if form.Invalid? {
        return InvalidForm(form.errors);
      }
      rows := rows[pk := EditedRow(rows[pk], form.data, now)];
      r := RedirectToList;
      EditKeepsInvariant(before, pk, verb, form, now);
    }

    /** The delete view; POST and DELETE both remove the row. */
    method Delete(pk: nat, verb: HttpMethod) returns (r: Response)
      requires Valid()
      modifies this
      ensures Valid()
      ensures Outcome(State(), r) == DeleteStep(old(State()), pk, verb)
    {
      if verb == Options {
        return OptionsAllowed(DeleteMethods);
      } else if verb == Put || verb == OtherMethod {
        return MethodNotAllowed;
      }
      if pk !in rows {
        return NotFound;
      }
      if verb == Get || verb == Head {
        return ConfirmDelete(rows[pk]);
      }
      rows := rows - {pk};
      r := RedirectToList;
    }

    /** `toggle_todo_status`: flip the flag, save, answer with JSON. */
    method Toggle(pk: nat, verb: HttpMethod, now: DateTime) returns (r: Response)
      requires Valid() && ClockNotBefore(State(), now)
      modifies this
      ensures Valid()
      ensures Outcome(State(), r) == ToggleStep(old(State()), pk, verb, now)
    {
      if verb != Post {
        return MethodNotAllowed;
      }
      if pk !in rows {
        return NotFound;
      }
      ghost var before := State();
      var todo := rows[pk];
      todo := todo.(isResolved := !todo.isResolved);
      todo := Save(todo, now);
      rows := rows[pk := todo];
      r := ToggleJson(true, todo.isResolved, ToggleMessage(todo.isResolved));
      ToggleKeepsInvariant(before, pk, verb, now);
    }
  }
}
