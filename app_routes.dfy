/** The client-side route table of the application (src/App.tsx). */
module AppRoutes {

  /** The registered paths, in declaration order. */
  const Routes: seq<string> := ["/", "/world-map", "/profile", "/projects", "/achievements", "/contact", "/experience"]

  predicate Registered(path: string) {
    path in Routes
  }

  /** Seven distinct paths, each one view. */
  lemma RoutesDistinct()
    ensures |Routes| == 7
    ensures forall i, j | 0 <= i < j < |Routes| :: Routes[i] != Routes[j]
  {
  }
}
