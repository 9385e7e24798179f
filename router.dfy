/** The browser location as the router's `navigate` changes it. */
module Router {

  class Router {
    var pathname: string
    /** Every path navigated to, oldest first. */
    var history: seq<string>

    constructor (start: string)
      ensures pathname == start && history == []
    {
      pathname := start;
      history := [];
    }

    method Navigate(to: string)
      modifies this
      ensures pathname == to && history == old(history) + [to]
    {
      pathname := to;
      history := history + [to];
    }
  }
}
