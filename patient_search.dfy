/**
 * src/pages/PatientSearch.tsx: the permission gate, and the four search
 * filters with their department to doctor cascade and reset.
 */
module PatientSearch {
  import opened Catalog

  /** What the page renders. */
  datatype View = AccessRestricted | SearchForm

  /** What `handleSearch` logs: the four filters. */
  datatype SearchQuery = SearchQuery(department: string, doctor: string, patientName: string, rmn: string)

  /**
   * `canSearchPatients`. `hasPermission` comes from the role guard, whose policy
   * is not part of this model, so it is a parameter.
   */
  predicate CanSearchPatients(hasPermission: string -> bool) {
    hasPermission("patient_search") || hasPermission("patient_read") || hasPermission("all")
  }

  /** Without one of the three permissions only the restricted view is produced. */
  function Render(hasPermission: string -> bool): (v: View)
    ensures v == AccessRestricted <==>
      !hasPermission("patient_search") && !hasPermission("patient_read") && !hasPermission("all")
    ensures v == SearchForm <==> CanSearchPatients(hasPermission)
  {
    if !CanSearchPatients(hasPermission) then AccessRestricted else SearchForm
  }

  /** Granting more permissions never takes the search form away. */
  lemma GateIsMonotone(weaker: string -> bool, stronger: string -> bool)
    requires forall p :: weaker(p) ==> stronger(p)
    ensures Render(weaker) == SearchForm ==> Render(stronger) == SearchForm
  {
  }

  /** The page's filter state, updated in place by its handlers. */
  class SearchFilters {
    var department: string
    var doctor: string
    var patientName: string
    var rmn: string

    function Query(): SearchQuery
      reads this
    {
      SearchQuery(department, doctor, patientName, rmn)
    }

    /** The selected doctor is empty or one of the selected department's doctors. */
    ghost predicate Valid()
      reads this
    {
      doctor == "" || doctor in DoctorIds(AvailableDoctors(department))
    }

    constructor ()
      ensures Valid()
      ensures Query() == SearchQuery("", "", "", "")
    {
      department, doctor, patientName, rmn := "", "", "", "";
    }

    /** `availableDoctors` for the current department. */
    function Doctors(): seq<Doctor>
      reads this
    {
      AvailableDoctors(department)
    }

    /** `handleDeptChange`: sets the department and clears the doctor; name and RMN stay. */
    method ChangeDepartment(value: string)
      requires Valid()
      modifies this
      ensures Valid()
      ensures Query() == old(Query()).(department := value, doctor := "")
    {
      department := value;
      doctor := "";
    }

    /** The doctor select offers only the current department's doctors. */
    method SelectDoctor(id: string)
      requires Valid()
      requires id in DoctorIds(Doctors())
      modifies this
      ensures Valid()
      ensures Query() == old(Query()).(doctor := id)
    {
      doctor := id;
    }

    method EditPatientName(name: string)
      requires Valid()
      modifies this
      ensures Valid()
      ensures Query() == old(Query()).(patientName := name)
    {
      patientName := name;
    }

    method EditRmn(value: string)
      requires Valid()
      modifies this
      ensures Valid()
      ensures Query() == old(Query()).(rmn := value)
    {
      rmn := value;
    }

    /** `handleReset`: all four filters back to empty. */
    method Reset()
      modifies this
      ensures Valid()
      ensures Query() == SearchQuery("", "", "", "")
    {
      department := "";
      doctor := "";
      patientName := "";
      rmn := "";
    }

    /** `handleSearch`: reports the current filters and changes none of them. */
    method Search() returns (q: SearchQuery)
      ensures q.department == department && q.doctor == doctor
      ensures q.patientName == patientName && q.rmn == rmn
    {
      q := SearchQuery(department, doctor, patientName, rmn);
    }
  }
}
