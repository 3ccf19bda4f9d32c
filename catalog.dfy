/**
 * The department and doctor lookup that src/pages/BookAppointment.tsx and
 * src/pages/PatientSearch.tsx each declare (identical copies), and the
 * `availableDoctors` rule both pages derive from it.
 */
module Catalog {

  datatype Department = Department(id: string, name: string)
  datatype Doctor = Doctor(id: string, name: string)

  const Departments: seq<Department> := [
    Department("1", "Cardiology"),
    Department("2", "Neurology"),
    Department("3", "Orthopedics"),
    Department("4", "Pediatrics"),
    Department("5", "General Medicine")
  ]

  const DoctorsByDept: map<string, seq<Doctor>> := map[
    "1" := [Doctor("d1", "Dr. Sarah Johnson"), Doctor("d2", "Dr. Michael Chen"), Doctor("d3", "Dr. Emily Rodriguez")],
    "2" := [Doctor("d4", "Dr. Robert Williams"), Doctor("d5", "Dr. Lisa Anderson"), Doctor("d6", "Dr. James Taylor")],
    "3" := [Doctor("d7", "Dr. David Brown"), Doctor("d8", "Dr. Jennifer Martinez"), Doctor("d9", "Dr. Thomas Wilson")],
    "4" := [Doctor("d10", "Dr. Maria Garcia"), Doctor("d11", "Dr. Christopher Lee"), Doctor("d12", "Dr. Amanda White")],
    "5" := [Doctor("d13", "Dr. John Smith"), Doctor("d14", "Dr. Patricia Davis"), Doctor("d15", "Dr. Kevin Moore")]
  ]

  /**
   * `selectedDept ? doctorsByDept[selectedDept] || [] : []`: nothing without a
   * department, the department's list for a known one, nothing for an unknown one.
   */
  function AvailableDoctors(dept: string): (r: seq<Doctor>)
    ensures dept == "" ==> r == []
    ensures dept != "" && dept in DoctorsByDept ==> r == DoctorsByDept[dept]
    ensures dept !in DoctorsByDept ==> r == []
  {
    if dept != "" then (if dept in DoctorsByDept then DoctorsByDept[dept] else []) else []
  }

  /** The ids of a list of doctors, as the doctor select offers them. */
  function DoctorIds(ds: seq<Doctor>): (ids: set<string>)
    ensures forall d :: d in ds ==> d.id in ids
    ensures forall id :: id in ids ==> exists d :: d in ds && d.id == id
  {
    set d | d in ds :: d.id
  }

  /**
   * The departments the page offers are exactly the keys of the lookup, and
   * each offers three doctors; so a doctor list is empty exactly when no
   * offered department is selected.
   */
  lemma OfferedDepartmentsHaveDoctors(dept: string)
    ensures (exists d :: d in Departments && d.id == dept) <==> dept in DoctorsByDept
    ensures dept in DoctorsByDept ==> |AvailableDoctors(dept)| == 3
    ensures AvailableDoctors(dept) == [] <==> dept !in DoctorsByDept
  {
    assert Departments[0].id == "1" && Departments[1].id == "2" && Departments[2].id == "3";
    assert Departments[3].id == "4" && Departments[4].id == "5";
  }
}
