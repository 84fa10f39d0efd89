/** The evaluators' score sheets. The report classes themselves are not part
    of this model: a `Report` is its four counters, each counting the calls
    of its own increment, and a `DistanceReport` is the list of the
    distances added to it. Precision, recall and the distance statistics
    computed from them are left out. */
module Reports {
  import opened Folds

  datatype Report = Report(tp: nat, fp: nat, fn: nat, instances: nat)

  /** `new Report()`. */
  function NewReport(): Report {
    Report(0, 0, 0, 0)
  }

  function IncrementTP(r: Report): Report {
    r.(tp := r.tp + 1)
  }

  function IncrementFP(r: Report): Report {
    r.(fp := r.fp + 1)
  }

  function IncrementFN(r: Report): Report {
    r.(fn := r.fn + 1)
  }

  /** `incrementFPandFN`: one false positive and one false negative. */
  function IncrementFPandFN(r: Report): Report {
    r.(fp := r.fp + 1, fn := r.fn + 1)
  }

  function IncrementInstanceCount(r: Report): Report {
    r.(instances := r.instances + 1)
  }

  datatype DistanceReport = DistanceReport(distances: seq<ExtReal>)

  /** `addDistance`. */
  function AddDistance(d: DistanceReport, x: ExtReal): DistanceReport {
    DistanceReport(d.distances + [x])
  }
}
