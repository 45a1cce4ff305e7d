/**
 * The member's follower dashboard: a form over three fields, the add and edit
 * handlers with their early-return guards and the 10-follower cap, the
 * create/update mutation callbacks, and the rule that disables the Add button.
 *
 * The decisions are functions of the form and the loaded list; the component
 * is a class whose methods apply the state setters. A mutation call or an
 * alert is returned to the caller as an outcome value; the network request,
 * the refetch it triggers and the browser alert are not modelled.
 */
module FollowerDashboard {
  import opened Common
  import opened Router

  /** A row of the loaded list as the client holds it; `arrivalDate` is the
      serialized date string. */
  datatype FollowerItem = FollowerItem(id: int, fullname: string, phoneNumber: string, arrivalDate: string)

  datatype FollowerForm = FollowerForm(fullname: string, phoneNumber: string, arrivalDate: string)

  const EmptyForm := FollowerForm("", "", "")

  /** The client-side cap on followers. */
  const MaxFollowers: nat := 10

  datatype AddOutcome =
    | Ignored                        // a field is empty: plain return
    | LimitAlert                     // the cap alert, no request
    | Create(input: FollowerForm)    // `createMutation(formData)`

  datatype UpdateFollowerInput = UpdateFollowerInput(id: int, fullname: string, phoneNumber: string, arrivalDate: string)

  predicate FormComplete(form: FollowerForm)
  {
    form.fullname != "" && form.phoneNumber != "" && form.arrivalDate != ""
  }

  /** What `handleAddFollower` does for a form and a loaded list of
      `listLength` rows. */
  function AddDecision(form: FollowerForm, listLength: nat): (o: AddOutcome)
    ensures o == Ignored <==> !FormComplete(form)
    ensures o == LimitAlert <==> FormComplete(form) && listLength >= MaxFollowers
    ensures o.Create? <==> FormComplete(form) && listLength < MaxFollowers
    ensures o.Create? ==> o.input == form
  {
    if !FormComplete(form) then Ignored
    else if listLength >= MaxFollowers then LimitAlert
    else Create(form)
  }

  /** The request `handleEditFollower` sends, if any. */
  function EditRequest(editing: Option<FollowerItem>, form: FollowerForm): (r: Option<UpdateFollowerInput>)
    ensures r.Some? <==> editing.Some? && FormComplete(form)
    ensures r.Some? ==> r.value.id == editing.value.id && r.value.fullname == form.fullname
                        && r.value.phoneNumber == form.phoneNumber && r.value.arrivalDate == form.arrivalDate
  {
    if editing.None? || !FormComplete(form) then None
    else Some(UpdateFollowerInput(editing.value.id, form.fullname, form.phoneNumber, form.arrivalDate))
  }

  /** `disabled={followers.length === 10}`. */
  predicate AddButtonDisabled(followers: seq<FollowerItem>)
  {
    |followers| == MaxFollowers
  }

  /** The list is one page of `getFollowers`, so it never holds more than 10
      rows; on such a list the button is disabled exactly when the handler
      would refuse a complete form for the cap. */
  lemma ButtonAgreesWithCap(followers: seq<FollowerItem>, form: FollowerForm)
    requires |followers| <= PageSize
    requires FormComplete(form)
    ensures AddButtonDisabled(followers) <==> AddDecision(form, |followers|) == LimitAlert
  {
  }

  /** The cap reads the loaded page, which the search filters: when the search
      matches no stored follower, a complete form is sent to create however
      many followers are stored. */
  lemma SearchHidesCap(users: seq<User>, followers: seq<Follower>, search: string,
                        contains: (string, string) -> bool, form: FollowerForm)
    requires FormComplete(form)
    requires forall i :: 0 <= i < |followers| ==> !FollowerMatches(users, followers[i], Some(search), None, contains)
    ensures var page := GetFollowers(users, followers, Some(1), Some(search), None, contains);
            page.Ok? && AddDecision(form, |page.value|) == Create(form)
  {
    NoMatchEmptiesFilter(users, followers, search, contains);
  }

  lemma {:induction false} NoMatchEmptiesFilter(users: seq<User>, followers: seq<Follower>, search: string,
                                                contains: (string, string) -> bool)
    requires forall i :: 0 <= i < |followers| ==> !FollowerMatches(users, followers[i], Some(search), None, contains)
    ensures FilterFollowers(users, followers, Some(search), None, contains) == []
  {
    if followers != [] {
      NoMatchEmptiesFilter(users, followers[1..], search, contains);
    }
  }

  class Dashboard {
    var errorMessage: Option<string>
    var isLoading: bool
    var search: string
    var isAddDialogOpen: bool
    var isEditDialogOpen: bool
    var editingFollower: Option<FollowerItem>
    var formData: FollowerForm
    var followers: seq<FollowerItem>   // the loaded page, `[]` until it arrives
    var totalFollowers: int            // the loaded count, 0 until it arrives

    constructor ()
      ensures errorMessage == None && !isLoading && search == ""
      ensures !isAddDialogOpen && !isEditDialogOpen && editingFollower == None
      ensures formData == EmptyForm && followers == [] && totalFollowers == 0
    {
      errorMessage := None;
      isLoading := false;
      search := "";
      isAddDialogOpen := false;
      isEditDialogOpen := false;
      editingFollower := None;
      formData := EmptyForm;
      followers := [];
      totalFollowers := 0;
    }

    /** The queries deliver the page and the count. */
    method LoadData(page: seq<FollowerItem>, total: int)
      modifies this`followers, this`totalFollowers
      ensures followers == page && totalFollowers == total
    {
      followers := page;
      totalFollowers := total;
    }

    /** `handleAddFollower`; when it sends, the mutation's `onMutate` sets the
        loading flag and clears the error. */
    method HandleAddFollower() returns (o: AddOutcome)
      modifies this`isLoading, this`errorMessage
      ensures o == AddDecision(formData, |followers|)
      ensures o.Create? ==> isLoading && errorMessage == None
      ensures !o.Create? ==> isLoading == old(isLoading) && errorMessage == old(errorMessage)
    {
      o := AddDecision(formData, |followers|);
      if o.Create? {
        isLoading := true;
        errorMessage := None;
      }
    }

    /** `onSuccess` of the create mutation. */
    method OnCreateSuccess()
      modifies this`formData, this`isAddDialogOpen, this`isLoading
      ensures formData == EmptyForm && !isAddDialogOpen && !isLoading
    {
      formData := EmptyForm;
      isAddDialogOpen := false;
      isLoading := false;
    }

    /** `onError` of the create mutation. */
    method OnCreateError(message: string)
      modifies this`errorMessage, this`isLoading
      ensures errorMessage == Some(message) && !isLoading
    {
      errorMessage := Some(message);
      isLoading := false;
    }

    /** `handleEditFollower`: changes no state. */
    method HandleEditFollower() returns (r: Option<UpdateFollowerInput>)
      ensures r == EditRequest(editingFollower, formData)
    {
      r := EditRequest(editingFollower, formData);
    }

    /** `onSuccess` of the update mutation. */
    method OnUpdateSuccess()
      modifies this`editingFollower, this`formData, this`isEditDialogOpen
      ensures editingFollower == None && formData == EmptyForm && !isEditDialogOpen
    {
      editingFollower := None;
      formData := EmptyForm;
      isEditDialogOpen := false;
    }

    /** `openEditDialog`: the form takes the row's three fields. */
    method OpenEditDialog(follower: FollowerItem)
      modifies this`editingFollower, this`formData, this`isEditDialogOpen
      ensures editingFollower == Some(follower) && isEditDialogOpen
      ensures formData == FollowerForm(follower.fullname, follower.phoneNumber, follower.arrivalDate)
    {
      editingFollower := Some(follower);
      formData := FollowerForm(follower.fullname, follower.phoneNumber, follower.arrivalDate);
      isEditDialogOpen := true;
    }

    /** `resetForm`, run when the Add button is clicked. */
    method ResetForm()
      modifies this`formData, this`editingFollower
      ensures formData == EmptyForm && editingFollower == None
    {
      formData := EmptyForm;
      editingFollower := None;
    }

    /** The search box's `onChange`. */
    method SetSearch(value: string)
      modifies this`search
      ensures search == value
    {
      search := value;
    }

    /** The error dialog's Ok button. */
    method DismissError()
      modifies this`errorMessage
      ensures errorMessage == None
    {
      errorMessage := None;
    }
  }
}
