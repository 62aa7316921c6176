/**
 * The fetch-on-mount cycle every page repeats: start in `loading`, await the
 * read, store either the payload or a fixed error message, clear `loading`,
 * and render by the precedence loading, then error, then content.
 */
module Screen {
  import opened Js

  /** What a page shows for its mount-time read. */
  datatype View<T> = LoadingView | ErrorView(message: string) | ContentView(content: T)

  /** The `loading`, `error` and data state hooks of one page. */
  datatype Load<T> = Load(loading: bool, error: Option<string>, data: T)

  /** The state a page mounts with: loading, no error, initial data. */
  function Mounted<T>(init: T): (s: Load<T>)
    ensures s.loading && s.error.None? && s.data == init
  {
    Load(true, None, init)
  }

  /** `if (error)`: the error hook holds a non-empty message. */
  predicate ErrorSet(error: Option<string>) {
    error.Some? && error.value != ""
  }

  predicate HasError<T>(s: Load<T>) {
    ErrorSet(s.error)
  }

  /** Loading wins over an error, and an error wins over the content. */
  function Render<T>(s: Load<T>): (v: View<T>)
    ensures v.LoadingView? <==> s.loading
    ensures v.ErrorView? <==> !s.loading && HasError(s)
    ensures v.ErrorView? ==> v.message == s.error.value
    ensures v.ContentView? ==> v.content == s.data
  {
    if s.loading then LoadingView
    else if HasError(s) then ErrorView(s.error.value)
    else ContentView(s.data)
  }

  /** One awaited read: store the payload, or the page's message on rejection; `loading` ends either way. */
  function Settle<T>(s: Load<T>, outcome: Outcome<T>, message: string): (r: Load<T>)
    ensures !r.loading
    ensures outcome.Success? ==> r.data == outcome.value && r.error == s.error
    ensures outcome.Failure? ==> r.data == s.data && r.error == Some(message)
  {
    match outcome
    case Success(v) => Load(false, s.error, v)
    case Failure => Load(false, Some(message), s.data)
  }

  /** `Promise.all([a, b])`: resolves with both payloads only when both reads resolve. */
  function PromiseAll<A, B>(a: Outcome<A>, b: Outcome<B>): (r: Outcome<(A, B)>)
    ensures r.Success? <==> a.Success? && b.Success?
    ensures r.Success? ==> r.value == (a.value, b.value)
  {
    if a.Success? && b.Success? then Success((a.value, b.value)) else Failure
  }

  /** A freshly mounted page shows its placeholder. */
  lemma MountedShowsLoading<T>(init: T)
    ensures Render(Mounted(init)) == LoadingView
  {
  }

  /** After its read settles a page shows the payload, or the message when the read was rejected; never the placeholder again. */
  lemma SettledView<T>(init: T, outcome: Outcome<T>, message: string)
    requires message != ""
    ensures Render(Settle(Mounted(init), outcome, message)) ==
      (if outcome.Success? then ContentView(outcome.value) else ErrorView(message))
  {
  }
}
