/**
 * The part of the agent bakery API that the yum bakery plugins use: the plugin
 * file a files function yields, for one target operating system.
 */
module BakeryApi {
  import opened Python

  datatype OS = Linux | Solaris | Aix | Windows

  /** An agent plugin to package: where it runs, which file it is, and its asynchronous interval. */
  datatype Plugin = Plugin(baseOs: OS, source: string, interval: Option<int>)

  /** `Plugin(base_os=OS.LINUX, source=Path('yum'), interval=interval)`. */
  function YumPlugin(interval: Option<int>): Plugin {
    Plugin(Linux, "yum", interval)
  }

  /** `int(v)` inside `try ... except (TypeError, ValueError)`: a failed conversion gives None. */
  function IntOrNone(v: Value): (r: Option<int>)
    ensures r.Some? <==> IntOf(v).Ok?
    ensures r.Some? ==> r.value == IntOf(v).value
    ensures v.Num? ==> r == Some(Trunc(v.x))
  {
    match IntOf(v)
    case Ok(n) => Some(n)
    case Raised(_) => None
  }

  /** `int(v) if v is not None else None`, where a failed conversion raises. */
  function OptionalInt(v: Value): (r: Outcome<Option<int>>)
    ensures v == NoneV ==> r == Ok(None)
    ensures v != NoneV ==> (r.Ok? <==> IntOf(v).Ok?)
    ensures v != NoneV && r.Ok? ==> r.value == Some(IntOf(v).value)
    ensures r.Raised? ==> r.error == TypeError || r.error == ValueError
  {
    if v == NoneV then Ok(None)
    else
      var n :- IntOf(v);
      Ok(Some(n))
  }
}
