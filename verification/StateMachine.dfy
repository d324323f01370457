/** The cluster status table: api/internal/clusters/statemachine.go. */
module StateMachine {

  datatype Status =
    | Pending | Initializing | Initialized | Deploying | Ready
    | Upgrading | Degraded | Destroying | Destroyed | Error

  const ALLOWED: map<Status, set<Status>> := map[
    Pending := {Initializing},
    Initializing := {Initialized, Error},
    Initialized := {Initializing, Deploying},
    Deploying := {Ready, Error},
    Ready := {Upgrading, Destroying, Degraded},
    Upgrading := {Ready, Error},
    Degraded := {Deploying, Destroying},
    Destroying := {Destroyed, Error},
    Destroyed := {Initializing, Deploying},
    Error := {Initializing, Deploying, Destroying}
  ]

  // An edge of the table, self-loops excluded.
  predicate Edge(from: Status, to: Status) {
    from in ALLOWED && to in ALLOWED[from]
  }

  // What the handlers ask. Unlike Edge it accepts from == to.
  predicate CanTransition(from: Status, to: Status) {
    from == to || Edge(from, to)
  }

  // Statuses in which Delete drops the row at once.
  const DIRECT_DELETABLE: set<Status> := {Pending, Initialized, Destroyed, Error}

  // Statuses in which Delete with cascade=destroy starts a destroy first.
  const CASCADE_DELETABLE: set<Status> := {Ready, Degraded}

  // A sequence of statuses in which every change is an edge of the table.
  ghost predicate FollowsTable(trail: seq<Status>) {
    forall i {:trigger trail[i]} :: 0 < i < |trail| ==> Edge(trail[i - 1], trail[i])
  }
}
