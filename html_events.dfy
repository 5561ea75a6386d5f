/** The tag stream that html.parser.HTMLParser hands to its subclasses'
    callbacks, in document order. Tokenising the markup is the library's job;
    the models here start from the event sequence. Tag and attribute names
    arrive in lower case, as the library reports them. */
module HtmlEvents {
  import opened Base

  /** An attribute pair; a value-less attribute (`<a href>`) carries None. */
  type Attr = (string, Option<string>)

  datatype Event =
    | Start(tag: string, attrs: seq<Attr>)
    | Data(text: string)
    | End(tag: string)

  /** str(v) for an attribute value: a missing value prints as "None". */
  function PyStr(v: Option<string>): string {
    if v.Some? then v.value else "None"
  }

  /** any(m in str(v).lower() for k, v in attrs if k == 'class'), for some marker m. */
  predicate AnyClassContains(attrs: seq<Attr>, markers: seq<string>) {
    exists i, j :: 0 <= i < |attrs| && 0 <= j < |markers| && attrs[i].0 == "class"
                   && Contains(Lower(PyStr(attrs[i].1)), markers[j])
  }

  /** Number of start tags in a stream. */
  function CountStarts(events: seq<Event>): nat {
    if events == [] then 0
    else (if events[0].Start? then 1 else 0) + CountStarts(events[1..])
  }

  /** Number of text events whose text is not all whitespace. */
  function CountTexts(events: seq<Event>): nat {
    if events == [] then 0
    else (if events[0].Data? && Strip(events[0].text) != "" then 1 else 0) + CountTexts(events[1..])
  }

  /** Number of start tags with the given name. */
  function CountStartsOf(events: seq<Event>, tag: string): nat {
    if events == [] then 0
    else (if events[0].Start? && events[0].tag == tag then 1 else 0) + CountStartsOf(events[1..], tag)
  }
}
