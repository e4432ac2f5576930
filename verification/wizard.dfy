/**
  What a screen action hands back to the surrounding navigation: the store
  after the action, the route pushed (if any) and the alert shown (if any).
 */
module Wizard {
  import opened Wrappers
  import opened Store

  /** The routes the wizard's screens push. */
  datatype Route = Home | FormsMaterno | FormsPaterno | FormsObs

  /** The dialogs the wizard's actions raise, by kind. */
  datatype Alert =
    | Incomplete                        // student step: some field has an error
    | MissingFields(labels: seq<string>) // guardian step: the labels of empty required fields
    | InvalidFields                     // guardian step: nothing empty, but errors recorded
    | StepErrors(messages: seq<string>) // observations: the sub-step's error list
    | SubmissionFailed(message: string) // observations: a request failed
    | Completed                         // observations: every request succeeded

  datatype StepOutcome = StepOutcome(store: FormStore, next: Option<Route>, alert: Option<Alert>)
}
