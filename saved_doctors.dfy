/** The saved-doctors page: the doctor records extracted from the saved list
    and the case-insensitive search over name, specialty and hospital. */
module SavedDoctors {
  import opened Common
  import opened Seqs
  import opened Text

  /** A doctor record as the page reads it; the searched fields may be missing. */
  datatype Doctor = Doctor(id: int, name: Option<string>, specialty: Option<string>, hospital: Option<string>, location: string)

  /** One entry of `GET /saved-doctors/`. */
  datatype SavedEntry = SavedEntry(doctorDetails: Option<Doctor>)

  /** The body of the response: an array of entries, or anything else. */
  datatype SavedResponse = NotAnArray | Entries(items: seq<SavedEntry>)

  /** `res.data.map(item => item.doctor_details).filter(Boolean)`. */
  function ExtractDoctors(items: seq<SavedEntry>): (r: seq<Doctor>)
    ensures |r| <= |items|
    ensures forall d :: d in r <==> exists i :: 0 <= i < |items| && items[i].doctorDetails == Some(d)
  {
    if items == [] then []
    else
      var rest := ExtractDoctors(items[1..]);
      assert forall d :: (exists i :: 0 <= i < |items[1..]| && items[1..][i].doctorDetails == Some(d)) <==>
                         (exists i :: 1 <= i < |items| && items[i].doctorDetails == Some(d)) by {
        forall d ensures (exists i :: 0 <= i < |items[1..]| && items[1..][i].doctorDetails == Some(d)) ==>
                         (exists i :: 1 <= i < |items| && items[i].doctorDetails == Some(d)) {
          if exists i :: 0 <= i < |items[1..]| && items[1..][i].doctorDetails == Some(d) {
            var i :| 0 <= i < |items[1..]| && items[1..][i].doctorDetails == Some(d);
            assert items[i + 1] == items[1..][i];
          }
        }
        forall d ensures (exists i :: 1 <= i < |items| && items[i].doctorDetails == Some(d)) ==>
                         (exists i :: 0 <= i < |items[1..]| && items[1..][i].doctorDetails == Some(d)) {
          if exists i :: 1 <= i < |items| && items[i].doctorDetails == Some(d) {
            var i :| 1 <= i < |items| && items[i].doctorDetails == Some(d);
            assert items[1..][i - 1] == items[i];
          }
        }
      }
      match items[0].doctorDetails
      case Some(d) => [d] + rest
      case None => rest
  }

  /** Extraction keeps the order of the list: it works entry by entry. */
  lemma {:induction false} ExtractConcat(a: seq<SavedEntry>, b: seq<SavedEntry>)
    ensures ExtractDoctors(a + b) == ExtractDoctors(a) + ExtractDoctors(b)
  {
    if a == [] {
      assert a + b == b;
    } else {
      assert (a + b)[0] == a[0];
      assert (a + b)[1..] == a[1..] + b;
      ExtractConcat(a[1..], b);
    }
  }

  /** When every entry has its details, they are the list, one for one. */
  lemma {:induction false} ExtractAllPresent(items: seq<SavedEntry>)
    requires forall i :: 0 <= i < |items| ==> items[i].doctorDetails.Some?
    ensures |ExtractDoctors(items)| == |items|
    ensures forall i :: 0 <= i < |items| ==> ExtractDoctors(items)[i] == items[i].doctorDetails.value
  {
    if items != [] {
      ExtractAllPresent(items[1..]);
      assert ExtractDoctors(items) == [items[0].doctorDetails.value] + ExtractDoctors(items[1..]);
      forall i | 1 <= i < |items| ensures ExtractDoctors(items)[i] == items[i].doctorDetails.value {
        assert items[1..][i - 1] == items[i];
      }
    }
  }

  /** The search test for one doctor, with the query already lower-cased;
      missing fields count as empty text. */
  predicate Matches(doc: Doctor, lowerQuery: string)
  {
    || Contains(Lower(OrEmpty(doc.name)), lowerQuery)
    || Contains(Lower(OrEmpty(doc.specialty)), lowerQuery)
    || Contains(Lower(OrEmpty(doc.hospital)), lowerQuery)
  }

  function MatchesQuery(lowerQuery: string): Doctor -> bool
  {
    doc => Matches(doc, lowerQuery)
  }

  /** The filter effect: everything for an empty search, otherwise the
      doctors matching the lower-cased search, in order. */
  function FilterDoctors(docs: seq<Doctor>, search: string): seq<Doctor>
  {
    if search == "" then docs else Filter(docs, MatchesQuery(Lower(search)))
  }

  /** The filtered list is a subsequence of the doctors and holds exactly
      those that match. */
  lemma FilterDoctorsSpec(docs: seq<Doctor>, search: string)
    ensures Subsequence(FilterDoctors(docs, search), docs)
    ensures search == "" ==> FilterDoctors(docs, search) == docs
    ensures search != "" ==>
              forall d :: d in FilterDoctors(docs, search) <==> d in docs && Matches(d, Lower(search))
    ensures search != "" ==>
              forall d :: multiset(FilterDoctors(docs, search))[d] ==
                            if Matches(d, Lower(search)) then multiset(docs)[d] else 0
  {
    if search == "" {
      FilterKeepsAll(docs, (d: Doctor) => true);
      FilterIsSubsequence(docs, (d: Doctor) => true);
    } else {
      FilterIsSubsequence(docs, MatchesQuery(Lower(search)));
    }
  }

  /** A doctor matches when the lower-cased query occurs in one of its
      lower-cased fields. */
  lemma MatchesMeansOccurs(doc: Doctor, search: string)
    ensures Matches(doc, Lower(search)) <==>
              (exists i :: OccursAt(Lower(OrEmpty(doc.name)), Lower(search), i)) ||
              (exists i :: OccursAt(Lower(OrEmpty(doc.specialty)), Lower(search), i)) ||
              (exists i :: OccursAt(Lower(OrEmpty(doc.hospital)), Lower(search), i))
  {
    var q := Lower(search);
    ContainsMeansOccurs(Lower(OrEmpty(doc.name)), q);
    ContainsMeansOccurs(Lower(OrEmpty(doc.specialty)), q);
    ContainsMeansOccurs(Lower(OrEmpty(doc.hospital)), q);
    assert Matches(doc, q) <==> Contains(Lower(OrEmpty(doc.name)), q) || Contains(Lower(OrEmpty(doc.specialty)), q) || Contains(Lower(OrEmpty(doc.hospital)), q);
  }

  class SavedDoctorsPage {
    var doctors: seq<Doctor>
    var filteredDoctors: seq<Doctor>
    var search: string
    var loading: bool
    var selectedDoctor: Option<Doctor>

    constructor ()
      ensures doctors == [] && filteredDoctors == [] && search == ""
      ensures loading && selectedDoctor == None
    {
      doctors, filteredDoctors, search := [], [], "";
      loading := true;
      selectedDoctor := None;
    }

    /** `fetchSaved`: `response` is `None` when the request fails. */
    method FetchSaved(response: Option<SavedResponse>)
      modifies this`doctors, this`filteredDoctors, this`loading
      ensures response.Some? && response.value.Entries? ==>
                doctors == ExtractDoctors(response.value.items) && filteredDoctors == doctors
      ensures !(response.Some? && response.value.Entries?) ==> doctors == [] && filteredDoctors == []
      ensures !loading
    {
      loading := true;
      if response.Some? && response.value.Entries? {
        var docs := ExtractDoctors(response.value.items);
        doctors := docs;
        filteredDoctors := docs;
      } else {
        doctors := [];
        filteredDoctors := [];
      }
      loading := false;
    }

    /** The effect run when `search` or `doctors` changes. */
    method ApplySearch()
      modifies this`filteredDoctors
      ensures filteredDoctors == FilterDoctors(doctors, search)
      ensures Subsequence(filteredDoctors, doctors)
    {
      FilterDoctorsSpec(doctors, search);
      if search == "" {
        filteredDoctors := doctors;
      } else {
        var lowerSearch := Lower(search);
        filteredDoctors := Filter(doctors, MatchesQuery(lowerSearch));
      }
    }

    /** `handleCloseModal`: clear the selection and fetch the list again. */
    method CloseModal(response: Option<SavedResponse>)
      modifies this`selectedDoctor, this`doctors, this`filteredDoctors, this`loading
      ensures selectedDoctor == None
      ensures response.Some? && response.value.Entries? ==>
                doctors == ExtractDoctors(response.value.items) && filteredDoctors == doctors
      ensures !(response.Some? && response.value.Entries?) ==> doctors == [] && filteredDoctors == []
      ensures !loading
    {
      selectedDoctor := None;
      FetchSaved(response);
    }
  }
}
