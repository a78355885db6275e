module JoinSpec {
  import opened Wrappers

  datatype JoinError = Cancelled | Panic

  datatype JoinState<T> =
    | Pending(waker: Option<nat>)
    | Ready(result: Result<T, JoinError>)
    | Consumed
}
