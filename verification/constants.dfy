/** Status values, transition graphs and roles. */
module Constants {
  /**
   * A status text after white-space trimming. The named cases are the spellings the program
   * knows; `Other` stands for every other text a client may send or an audit row may hold.
   */
  datatype Status =
    | Draft | Review | Approved | Restricted | Revoked
    | Valid | Expired
    | Received | Inspection | Hold | Released | Retired
    | Planned | Running | Passed | Failed
    | Other(name: string)

  type Graph = map<Status, set<Status>>

  const AIRCRAFT_PART_TRANSITIONS: Graph := map[
    Received := {Inspection, Hold},
    Inspection := {Hold, Released, Received},
    Hold := {Released, Retired, Inspection},
    Released := {Retired, Hold},
    Retired := {Released}
  ]

  const INSPECTION_TASK_TRANSITIONS: Graph := map[
    Planned := {Running},
    Running := {Passed, Failed},
    Passed := {},
    Failed := {Running}
  ]

  const CERTIFICATE_RECORD_TRANSITIONS: Graph := map[
    Draft := {Valid},
    Valid := {Expired, Revoked},
    Expired := {Revoked},
    Revoked := {}
  ]

  const RELEASE_AUTHORIZATION_TRANSITIONS: Graph := map[
    Draft := {Review},
    Review := {Approved, Restricted, Draft},
    Approved := {Restricted, Revoked},
    Restricted := {Revoked},
    Revoked := {}
  ]

  predicate CanTransition(graph: Graph, from: Status, to: Status) {
    from in graph && to in graph[from]
  }

  datatype Role = Viewer | Operator | Reviewer | Admin

  predicate IsOperatorRole(role: Role) {
    role == Operator || role == Reviewer || role == Admin
  }

  predicate IsReviewerRole(role: Role) {
    role == Reviewer || role == Admin
  }
}
