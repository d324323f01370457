/** Stream events: api/internal/deployments/stream.go. Payload data and timestamps are not modelled. */
module Events {
  datatype EventType = StepStart | StepEnd | StepProgress | LogLine | AnsibleEvent | DeploymentComplete

  // step is "" on events that carry none; exit and status are only meaningful on step ends and completions.
  datatype Event = Event(kind: EventType, step: string, exit: int, status: string, text: string)

  function Started(step: string): Event { Event(StepStart, step, 0, "", "") }

  function Ended(step: string, exit: int): Event { Event(StepEnd, step, exit, "", "") }

  function Completed(status: string, text: string): Event { Event(DeploymentComplete, "", 0, status, text) }
}
