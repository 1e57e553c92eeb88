/** `LoadingErrorWrapper` of src/components/shared/loading-error-wrapper.tsx: chooses one of
    three views from its props. Markup is reduced to the text each view shows. */
module LoadingErrorWrapper {
  import opened Types

  /** The `error` prop: a JavaScript object whose `message` property may be undefined. */
  datatype ErrorValue = ErrorValue(message: Option<string>)

  datatype View<C> = LoadingView(message: string) | ErrorView(text: string) | Children(content: C)

  const DefaultLoadingMessage: string := "Loading..."
  const DefaultErrorPrefix: string := "Error"

  /** How JSX renders `{message}`: an undefined value renders as nothing. */
  function MessageText(message: Option<string>): string {
    message.GetOr("")
  }

  /** Loading wins over an error, an error wins over the children; the optional props default
      to "Loading..." and "Error". */
  function Render<C>(loading: bool, error: Option<ErrorValue>, loadingMessage: Option<string>,
                     errorPrefix: Option<string>, children: C): (v: View<C>)
    ensures loading ==> v == LoadingView(loadingMessage.GetOr(DefaultLoadingMessage))
    ensures !loading && error.Some? ==>
      v == ErrorView(errorPrefix.GetOr(DefaultErrorPrefix) + ": " + MessageText(error.value.message))
    ensures v.Children? <==> !loading && error.None?
    ensures v.Children? ==> v.content == children
  {
    if loading then LoadingView(loadingMessage.GetOr(DefaultLoadingMessage))
    else if error.Some? then
      ErrorView(errorPrefix.GetOr(DefaultErrorPrefix) + ": " + MessageText(error.value.message))
    else Children(children)
  }

  /** With every optional prop left out, the defaults show. */
  lemma DefaultTexts<C>(children: C, message: string)
    ensures Render(true, None, None, None, children) == LoadingView("Loading...")
    ensures Render(false, Some(ErrorValue(Some(message))), None, None, children) == ErrorView("Error: " + message)
  {
  }
}
