/** Small shared vocabulary: an optional value and the way a bot handler ends. */
module Common {

  datatype Option<+T> = None | Some(value: T)

  /** How one invocation of a bot handler ends.
      - Completed: the handler ran to its end;
      - Refused:   it answered with an error or refusal text and returned early;
      - Ignored:   its registration filter rejects the update, or it returned silently;
      - Raised:    a Python exception (KeyError, IndexError, ValueError, AttributeError)
                   escaped it; the effects made before the exception are kept. */
  datatype Outcome = Completed | Refused | Ignored | Raised
}
