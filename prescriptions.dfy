/**
 * src/pages/Prescriptions.tsx: the case-insensitive search over four fields
 * of each prescription, and the active / completed counts.
 */
module Prescriptions {
  import opened Text
  import opened Seqs

  datatype Medication = Medication(name: string, dosage: string, frequency: string, duration: string)

  datatype Prescription = Prescription(
    id: string,
    patientName: string,
    patientId: string,
    date: string,
    diagnosis: string,
    medications: seq<Medication>,
    status: string)

  /** The search test: the lower-cased term occurs in the lower-cased name, id, patient id or diagnosis. */
  predicate Matches(p: Prescription, term: string) {
    var t := ToLower(term);
    Includes(ToLower(p.patientName), t) ||
    Includes(ToLower(p.id), t) ||
    Includes(ToLower(p.patientId), t) ||
    Includes(ToLower(p.diagnosis), t)
  }

  /** `filteredPrescriptions`: the prescriptions that match, in their original order. */
  function Search(ps: seq<Prescription>, term: string): (r: seq<Prescription>)
    ensures IsSubsequence(r, ps)
    ensures forall p :: p in r <==> p in ps && Matches(p, term)
    ensures forall p :: multiset(r)[p] == if Matches(p, term) then multiset(ps)[p] else 0
  {
    Filter(ps, p => Matches(p, term))
  }

  /** An empty search term keeps every prescription. */
  lemma EmptyTermKeepsAll(ps: seq<Prescription>)
    ensures Search(ps, "") == ps
  {
    forall i | 0 <= i < |ps| ensures Matches(ps[i], "") {
      IncludesEmpty(ToLower(ps[i].patientName));
    }
    FilterKeepsAll(ps, p => Matches(p, ""));
  }

  /** Matching ignores case: upper- or lower-casing the term changes nothing. */
  lemma SearchIgnoresCase(ps: seq<Prescription>, term: string)
    ensures Search(ps, ToUpper(term)) == Search(ps, term)
    ensures Search(ps, ToLower(term)) == Search(ps, term)
  {
    ToLowerForgetsCase(term);
    FilterCongruent(ps, p => Matches(p, ToUpper(term)), p => Matches(p, term));
    FilterCongruent(ps, p => Matches(p, ToLower(term)), p => Matches(p, term));
  }

  /** Medication names are not searched: replacing the medications never changes a match. */
  lemma MedicationsNotSearched(p: Prescription, meds: seq<Medication>, term: string)
    ensures Matches(p.(medications := meds), term) == Matches(p, term)
  {
  }

  /** `prescriptions.filter((p: Prescription) => p.status === status).length`. */
  function CountWithStatus(ps: seq<Prescription>, status: string): (n: nat)
    ensures n <= |ps|
  {
    |Filter(ps, (p: Prescription) => p.status == status)|
  }

  /** The count reaches the total exactly when every prescription has that status. */
  lemma CountIsTotalIffAll(ps: seq<Prescription>, status: string)
    ensures CountWithStatus(ps, status) == |ps| <==> forall i :: 0 <= i < |ps| ==> ps[i].status == status
  {
    if forall i :: 0 <= i < |ps| ==> ps[i].status == status {
      FilterKeepsAll(ps, (p: Prescription) => p.status == status);
    } else {
      var i :| 0 <= i < |ps| && ps[i].status != status;
      FilterDropsFailing(ps, (p: Prescription) => p.status == status, i);
    }
  }

  /** The active and completed counts never add up to more than the total. */
  lemma StatusCountsFit(ps: seq<Prescription>)
    ensures CountWithStatus(ps, "active") + CountWithStatus(ps, "completed") <= |ps|
  {
    DisjointFiltersFit(ps, (p: Prescription) => p.status == "active", (p: Prescription) => p.status == "completed");
  }
}
