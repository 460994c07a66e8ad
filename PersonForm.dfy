/** The add/edit form (src/PersonForm.js). Its props come from the list view that renders it:
    `selectedPerson` is the host's `selectedPersonDetails`, and `fetchData`, `closeModal` and
    `setAlert` are the host's own handlers (the host passes `closeModal`, not `closeAddModal`). */
module PersonFormView {
  import opened People
  import opened PersonListView

  /** The `name` attributes of the form's inputs. */
  datatype FieldName = Name | LastName | Address | Gender | PhoneNumber

  /** The form with every field empty. */
  const Blank := Person("", "", "", "", "", "")

  const SubmitSucceeded := Alert(Success, "Operación exitosa")
  const SubmitFailed := Alert(Danger, "Error al realizar la operación")

  /** `formData[name]`: the field an input is bound to; never the id. */
  function FieldValue(d: Person, f: FieldName): (v: string)
    ensures v == d.name || v == d.lastName || v == d.address || v == d.gender || v == d.phoneNumber
  {
    match f
    case Name => d.name
    case LastName => d.lastName
    case Address => d.address
    case Gender => d.gender
    case PhoneNumber => d.phoneNumber
  }

  /** `{ ...formData, [name]: value }`: the named field holds the new value, the id and every other
      field are as before. */
  function WithField(d: Person, f: FieldName, value: string): (r: Person)
    ensures FieldValue(r, f) == value
    ensures forall g :: g != f ==> FieldValue(r, g) == FieldValue(d, g)
    ensures r.id == d.id
  {
    match f
    case Name => d.(name := value)
    case LastName => d.(lastName := value)
    case Address => d.(address := value)
    case Gender => d.(gender := value)
    case PhoneNumber => d.(phoneNumber := value)
  }

  /** The `useState` initial record: a copy of the selected person, or all fields empty. */
  function InitialFormData(selected: Option<Person>): (d: Person)
    ensures selected.None? ==> forall k :: 0 <= k < |Values(d)| ==> !Truthy(Values(d)[k])
    ensures selected.Some? ==> Values(d) == Values(selected.value)
  {
    if selected.Some? then selected.value else Blank
  }

  /** `value || ''`. */
  function OrEmpty(v: string): (r: string)
    ensures !Truthy(v) ==> r == ""
    ensures r == v
  {
    if Truthy(v) then v else ""
  }

  /** The record the effect installs: each field of the person, with a falsy one replaced by ''. */
  function Repopulated(p: Person): (d: Person)
    ensures forall k :: 0 <= k < |Values(d)| ==> Values(d)[k] == OrEmpty(Values(p)[k])
    ensures d == p
  {
    Person(OrEmpty(p.id), OrEmpty(p.name), OrEmpty(p.lastName), OrEmpty(p.address),
           OrEmpty(p.gender), OrEmpty(p.phoneNumber))
  }

  /** Because falsy fields are already '', repopulating from a selected person gives the same record
      the form would have been initialised with. */
  lemma RepopulatedIsInitial(p: Person)
    ensures Repopulated(p) == InitialFormData(Some(p))
  {
  }

  /** The one request a submission sends: a PUT addressed by the selected person's id when a person is
      selected, a POST otherwise; either way its body is the form's record. */
  function SubmitRequest(selected: Option<Person>, formData: Person): (r: Request)
    ensures r.Put? <==> selected.Some?
    ensures r.Post? <==> selected.None?
    ensures r.Put? ==> r.id == selected.value.id && r.body == formData
    ensures r.Post? ==> r.body == formData
  {
    if selected.Some? then Put(selected.value.id, formData) else Post(formData)
  }

  class PersonForm {
    /** The list view that renders this form and supplies its props. */
    const host: PersonList
    var formData: Person
    var loading: bool
    /** The requests this form has issued, oldest first. */
    var requests: seq<Request>

    /** Mounting the form with the host's current selection. */
    constructor (host: PersonList)
      ensures this.host == host
      ensures formData == InitialFormData(host.selectedPersonDetails)
      ensures !loading && requests == []
    {
      this.host := host;
      formData := InitialFormData(host.selectedPersonDetails);
      loading := false;
      requests := [];
    }

    /** The effect that runs when `selectedPerson` changes: repopulates the record from a selected
        person, and leaves it alone when there is none. */
    method SelectedPersonChanged()
      modifies this`formData
      ensures host.selectedPersonDetails.Some? ==> formData == Repopulated(host.selectedPersonDetails.value)
      ensures host.selectedPersonDetails.None? ==> formData == old(formData)
    {
      if host.selectedPersonDetails.Some? {
        formData := Repopulated(host.selectedPersonDetails.value);
      }
    }

    /** `handleChange`: replaces exactly the named field. */
    method HandleChange(name: FieldName, value: string)
      modifies this`formData
      ensures formData == WithField(old(formData), name, value)
    {
      formData := WithField(formData, name, value);
    }

    /** `handleClear`: empties all six fields (so a second clear changes nothing). */
    method HandleClear()
      modifies this`formData
      ensures formData == Blank
    {
      formData := Blank;
    }

    /** `handleSubmit`: sends exactly one request (see `SubmitRequest`). When it resolves, the host
        refetches its list (with outcome `refresh`), the form is emptied and the success banner is set;
        when it is rejected, the danger banner is set and the form keeps its record. Either way
        `loading` ends false and the host's `closeModal` runs, which leaves its add mode as it was. */
    method HandleSubmit(sent: Response<()>, refresh: Response<ListBody>)
      modifies this`formData, this`loading, this`requests
      modifies host`people, host`loading, host`requests, host`alert, host`showModal,
               host`selectedPersonDetails
      ensures requests == old(requests) + [SubmitRequest(old(host.selectedPersonDetails), old(formData))]
      ensures sent.Ok? ==> formData == Blank && host.alert == Some(SubmitSucceeded)
      ensures sent.Ok? ==> host.requests == old(host.requests) + [Get] && !host.loading
      ensures sent.Ok? && refresh.Ok? ==>
                host.people == (if refresh.body.PersonsArray? then refresh.body.persons else [])
      ensures sent.Ok? && refresh.Failed? ==> host.people == old(host.people)
      ensures sent.Failed? ==> formData == old(formData) && host.alert == Some(SubmitFailed)
      ensures sent.Failed? ==>
                host.requests == old(host.requests) && host.people == old(host.people) &&
                host.loading == old(host.loading)
      ensures !loading
      ensures !host.showModal && host.selectedPersonDetails == None
      ensures host.isAddingMode == old(host.isAddingMode)
    {
      loading := true;
      requests := requests + [SubmitRequest(host.selectedPersonDetails, formData)];
      if sent.Ok? {
        var _ := host.FetchData(refresh);
        formData := Blank;
        host.alert := Some(SubmitSucceeded);
      } else {
        host.alert := Some(SubmitFailed);
      }
      loading := false;
      host.CloseModal();
    }
  }
}
