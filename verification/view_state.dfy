/**
 The view state of the user-list screen and its event handlers. Each remote
 call's outcome is a parameter: `ok` says whether the POST, PUT or DELETE
 succeeded, and a `Fetch` gives what the GET that reloads the list returned.
 Every handler runs as one atomic step and returns the HTTP requests it
 issued, in order.
 */
module ViewState {

  import opened Optional
  import opened Search

  /** The outcome of `GET /todolist`. */
  datatype Fetch = Fetched(users: seq<User>) | FetchFailed

  /** The body of a create request: the six fields of the create form. */
  datatype NewUser = NewUser(
    name: string,
    city: string,
    email: string,
    phone: string,
    status: bool,
    avatar: string)

  /** The body of an update request: the two editable fields. */
  datatype UserUpdate = UserUpdate(name: string, city: string)

  /** The requests the screen sends to the remote collection. */
  datatype Request =
    | List
    | Create(body: NewUser)
    | Update(id: string, patch: UserUpdate)
    | Delete(id: string)

  /** The values in the create dialog's form controls. */
  datatype CreateForm = CreateForm(
    avatar: string,
    name: string,
    email: string,
    city: string,
    phone: string,
    statusChecked: bool)

  /** What `reset()` leaves in the form: empty inputs, the checkbox cleared. */
  const BlankForm := CreateForm("", "", "", "", "", false)

  /** An id the save handler accepts: JavaScript truthiness of null or a string. */
  predicate Truthy(id: Option<string>) {
    id.Some? && id.value != ""
  }

  /** The request `handleSubmit` posts for the form's current values. */
  function CreateRequest(form: CreateForm): Request {
    Create(NewUser(form.name, form.city, form.email, form.phone, form.statusChecked, form.avatar))
  }

  class AppView {
    /** The collection last fetched. */
    var data: seq<User>
    /** The text of the search box. */
    var search: string
    /** The edit draft: the row being edited and its new name and city. */
    var editName: string
    var editCity: string
    var editId: Option<string>
    /** The create dialog's form controls (DOM state, not component state). */
    var form: CreateForm

    /** With no row selected for editing, the draft is empty. */
    ghost predicate Valid()
      reads this
    {
      editId == None ==> editName == "" && editCity == ""
    }

    /** The rows the table shows. */
    function Visible(): (rows: seq<User>)
      reads this
      ensures IsSubsequence(rows, data)
      ensures forall u :: u in rows <==> u in data && Matches(u, search)
      ensures forall u :: multiset(rows)[u] == if Matches(u, search) then multiset(data)[u] else 0
    {
      FilterIsSubsequence(data, search);
      forall u ensures u in Filter(data, search) <==> u in data && Matches(u, search) {
        FilterMembership(data, search, u);
      }
      forall u ensures multiset(Filter(data, search))[u] == if Matches(u, search) then multiset(data)[u] else 0 {
        FilterCounts(data, search, u);
      }
      Filter(data, search)
    }

    /** The initial component state, with the create form blank. */
    constructor ()
      ensures data == [] && search == ""
      ensures editName == "" && editCity == "" && editId == None
      ensures form == BlankForm
      ensures Valid()
    {
      data := [];
      search := "";
      editName := "";
      editCity := "";
      editId := None;
      form := BlankForm;
    }

    /** `loadData`: a successful GET replaces the collection, a failed one leaves it. */
    method LoadData(f: Fetch) returns (sent: seq<Request>)
      modifies this`data
      ensures sent == [List]
      ensures f.Fetched? ==> data == f.users
      ensures f.FetchFailed? ==> data == old(data)
      ensures old(Valid()) ==> Valid()
    {
      sent := [List];
      match f {
        case Fetched(users) => data := users;
        case FetchFailed =>
      }
    }

    /** Typing in the search box: only the term changes. */
    method SetSearch(term: string)
      modifies this`search
      ensures search == term
      ensures data == old(data)
      ensures Visible() == Filter(data, term)
      ensures old(Valid()) ==> Valid()
    {
      search := term;
    }

    /** The edit action of a row: copy the row into the draft. */
    method OpenEdit(user: User)
      modifies this`editName, this`editCity, this`editId
      ensures editName == user.name && editCity == user.city && editId == Some(user.id)
      ensures Valid()
    {
      editName := user.name;
      editCity := user.city;
      editId := Some(user.id);
    }

    /** `handleSubmit`: post the form; on success reload the list and clear the form. */
    method HandleSubmit(ok: bool, reload: Fetch) returns (sent: seq<Request>)
      modifies this`data, this`form
      ensures |sent| == if ok then 2 else 1
      ensures sent[0].Create? && sent[0].body.status == old(form).statusChecked
      ensures sent[0].body.name == old(form).name && sent[0].body.city == old(form).city
      ensures sent[0].body.email == old(form).email && sent[0].body.phone == old(form).phone
      ensures sent[0].body.avatar == old(form).avatar
      ensures ok ==> sent[1] == List
      ensures ok && reload.Fetched? ==> data == reload.users
      ensures !ok || reload.FetchFailed? ==> data == old(data)
      ensures form == if ok then BlankForm else old(form)
      ensures old(Valid()) ==> Valid()
    {
      sent := [CreateRequest(form)];
      if ok {
        var listed := LoadData(reload);
        sent := sent + listed;
        form := BlankForm;
      }
    }

    /**
     `handleEditSave`: with no truthy id nothing happens; otherwise send the
     draft, and on success reload the list and clear the draft.
     */
    method HandleEditSave(ok: bool, reload: Fetch) returns (sent: seq<Request>)
      modifies this`data, this`editName, this`editCity, this`editId
      ensures !Truthy(old(editId)) ==>
        sent == [] && data == old(data) && editId == old(editId)
        && editName == old(editName) && editCity == old(editCity)
      ensures Truthy(old(editId)) ==>
        sent == [Update(old(editId).value, UserUpdate(old(editName), old(editCity)))]
                + (if ok then [List] else [])
      ensures Truthy(old(editId)) && ok ==>
        editId == None && editName == "" && editCity == ""
        && (reload.Fetched? ==> data == reload.users)
        && (reload.FetchFailed? ==> data == old(data))
      ensures Truthy(old(editId)) && !ok ==>
        data == old(data) && editId == old(editId)
        && editName == old(editName) && editCity == old(editCity)
      ensures old(Valid()) ==> Valid()
    {
      if !Truthy(editId) {
        return [];
      }
      sent := [Update(editId.value, UserUpdate(editName, editCity))];
      if ok {
        var listed := LoadData(reload);
        sent := sent + listed;
        editId := None;
        editName := "";
        editCity := "";
      }
    }

    /** `handleDelete`: delete by id; on success reload the list. */
    method HandleDelete(id: string, ok: bool, reload: Fetch) returns (sent: seq<Request>)
      modifies this`data
      ensures sent == [Delete(id)] + (if ok then [List] else [])
      ensures ok && reload.Fetched? ==> data == reload.users
      ensures !ok || reload.FetchFailed? ==> data == old(data)
      ensures old(Valid()) ==> Valid()
    {
      sent := [Delete(id)];
      if ok {
        var listed := LoadData(reload);
        sent := sent + listed;
      }
    }
  }
}
