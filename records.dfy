/** The upload record shared by the server and the dashboard client, and the
    wrapper types the model uses for optional values and failing calls. */
module Records {

  /** Lifecycle state of an upload. The source stores it as the strings
      "processing" and "safe"; `Safe` is terminal. */
  datatype Status = Processing | Safe

  /** One upload record, `{id, file, status, progress}`, as the server keeps
      it in its list and as it travels to clients in a `progress` event. */
  datatype Video = Video(id: string, file: string, status: Status, progress: int)

  datatype Option<T> = None | Some(value: T)

  datatype Result<T, E> = Success(value: T) | Failure(error: E)
}
