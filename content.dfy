/** The centred overlay (src/svgProgress.tsx:116-121): the component's children,
    either a node, a function of the current progress, or nothing. `N` stands
    for whatever the host UI renders. */
module Content {
  import opened Optional

  /** The argument a function child is called with: `{ percent }`. */
  datatype ContentArgs = ContentArgs(percent: real)

  datatype Children<N> = NoChildren | Static(node: N) | Dynamic(render: ContentArgs -> N)

  /** renderContent: call a function child with the current percent; hand any
      other child back unchanged, so that absent stays absent. */
  function ResolveContent<N>(children: Children<N>, percent: real): (r: Option<N>)
    ensures r.None? <==> children.NoChildren?
    ensures children.Static? ==> r == Some(children.node)
    ensures children.Dynamic? ==> r == Some(children.render(ContentArgs(percent)))
  {
    match children
    case NoChildren => None
    case Static(node) => Some(node)
    case Dynamic(render) => Some(render(ContentArgs(percent)))
  }

  /** Only a function child sees the percent: a static child (or none) resolves
      to the same overlay whatever the progress. */
  lemma StaticContentIgnoresPercent<N>(children: Children<N>, p: real, q: real)
    requires !children.Dynamic?
    ensures ResolveContent(children, p) == ResolveContent(children, q)
  {
  }

  /** A function child receives exactly the percent it is resolved with. */
  lemma DynamicContentSeesPercent<N>(f: ContentArgs -> N, percent: real)
    ensures ResolveContent(Dynamic(f), percent) == Some(f(ContentArgs(percent)))
  {
  }
}
