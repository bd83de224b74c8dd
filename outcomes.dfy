/** Small value wrappers shared by every module of the model. */
module Outcomes {

  datatype Option<+T> = None | Some(value: T)

  /** The result of an awaited fetch on the client: the decoded body, or a thrown error. */
  datatype Fetch<+T> = Loaded(value: T) | Failed

  /** Where a screen handler leaves the user after it has run. */
  datatype Next = Stay | Reload | GoBack | NavigateTo(route: string, rideId: Option<int>)
}
