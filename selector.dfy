/**
 * Selector resolution for recipe steps: a step names a `component_type` and
 * a `content`; an id becomes a `#` query, a class a `.` query, and anything
 * else (a raw CSS selector, an XPath expression) is used unchanged.
 */
module Selector {

  /** Both keys the resolver reads; without them Python raises `KeyError`. */
  predicate HasLocator(element: map<string, string>) {
    "component_type" in element && "content" in element
  }

  /** The prefix the component type adds in front of the content. */
  function Prefix(componentType: string): string {
    if componentType == "id" then "#"
    else if componentType == "class" then "."
    else ""
  }

  /** `get_selector(element)`: an id gets a `#` in front, a class a `.`, and
      any other content is used as it is. */
  function GetSelector(element: map<string, string>): (r: string)
    requires HasLocator(element)
    ensures var content := element["content"];
      && |r| == |content| + (if element["component_type"] in {"id", "class"} then 1 else 0)
      && r[|r| - |content|..] == content
      && (element["component_type"] == "id" ==> r[0] == '#')
      && (element["component_type"] == "class" ==> r[0] == '.')
  {
    var componentType := element["component_type"];
    if componentType == "id" then "#" + element["content"]
    else if componentType == "class" then "." + element["content"]
    else element["content"]
  }

  /** Reads the content back out of a selector built for `componentType`. */
  function ContentOf(componentType: string, selector: string): string {
    var n := |Prefix(componentType)|;
    if n <= |selector| then selector[n..] else selector
  }

  /** The selector and the component type determine the content: resolving
      loses nothing. */
  lemma ContentRoundTrip(element: map<string, string>)
    requires HasLocator(element)
    ensures ContentOf(element["component_type"], GetSelector(element)) == element["content"]
  {
    var r := GetSelector(element);
    assert r[|r| - |element["content"]|..] == element["content"];
  }

  /** Two steps of the same component type resolve alike only when their
      contents are equal. */
  lemma SelectorInjective(e1: map<string, string>, e2: map<string, string>)
    requires HasLocator(e1) && HasLocator(e2)
    requires e1["component_type"] == e2["component_type"]
    ensures GetSelector(e1) == GetSelector(e2) <==> e1["content"] == e2["content"]
  {
    if GetSelector(e1) == GetSelector(e2) {
      ContentRoundTrip(e1);
      ContentRoundTrip(e2);
    }
  }
}
