/**
 * What messages say: which of them count as requests, in which namespaces,
 * with which times, resource values, scores and buckets. Nothing here looks
 * at how the processor computes any of it; `Meaning` states with these words
 * what the database holds after a run.
 */
module Messages {
  import opened Options
  import opened Increments
  import opened ProcessorModel

  // ----- requests

  predicate Longer(fields: map<string, real>, name: string, ms: real) { name in fields && fields[name] > ms }

  predicate BackendRequest(m: Message) { m.Log? && !m.ignored }

  predicate PageRequest(m: Message) {
    m.FrontendPage? && m.early == AcceptedMsg && !Longer(m.fields, "page_time", 60000.0)
  }

  predicate AjaxRequest(m: Message) {
    m.FrontendAjax? && m.early == AcceptedMsg && !Longer(m.fields, "ajax_time", 60000.0)
  }

  predicate Request(m: Message) { BackendRequest(m) || PageRequest(m) || AjaxRequest(m) }

  predicate ScriptError(m: Message) { m.JsException? && m.description != "" }

  // ----- namespaces

  /** A name that lacks its method, or part of it, gets the method "unknown_method". */
  predicate Completes(given: string, page: string) {
    && ('#' !in given ==> page == given + "#unknown_method")
    && ('#' in given && given[|given| - 1] == '#' ==> page == given + "unknown_method")
    && ('#' in given && given[|given| - 1] != '#' ==> page == given)
  }

  predicate PageIs(m: Message, page: string)
    requires !m.Event?
  {
    if m.JsException? then
      match m.logjamAction
      case Some(given) => Completes(given, page)
      case None => page == "Unknown#unknown_method"
    else
      match (m.action, m.logjamAction)
      case (Some(given), _) => if given == "" then page == "Unknown#unknown_method" else Completes(given, page)
      case (None, Some(given)) => if given == "" then page == "Unknown#unknown_method" else Completes(given, page)
      case (None, None) => page == "Unknown#unknown_method"
  }

  /** "::" and what precedes the first colon of the page or, without any colon, its first hash. */
  predicate ModuleIs(page: string, ns: string) {
    && "::" <= ns && ns[2..] < page && ':' !in ns[2..]
    && (page[|ns| - 2] == ':' || (':' !in page && page[|ns| - 2] == '#' && '#' !in ns[2..]))
  }

  ghost predicate NoMethodIn(page: string) {
    exists k: nat :: k <= |page| && "#unknown_method" <= page[k..]
  }

  /** Javascript exceptions without a method are not counted for their page. */
  ghost predicate InSpace(m: Message, ns: string)
    requires !m.Event?
  {
    ns == "all_pages" ||
    exists page :: PageIs(m, page) && (ModuleIs(page, ns) || (ns == page && (m.JsException? ==> !NoMethodIn(page))))
  }

  // ----- times and resource values

  /** A time that is missing or zero counts as one millisecond. */
  function Lasting(fields: map<string, real>, name: string): (t: real) {
    if name !in fields || fields[name] == 0.0 then 1.0 else fields[name]
  }

  /** The sum of the named fields, with the total time as it counts. */
  function SumUp(fields: map<string, real>, names: seq<string>): (t: real) {
    if names == [] then 0.0
    else
      var n := |names| - 1;
      SumUp(fields, names[..n]) +
      if names[n] == "total_time" then Lasting(fields, "total_time")
      else if names[n] in fields then fields[names[n]]
      else 0.0
  }

  function Stated(fields: map<string, real>, name: string): (v: Option<real>) {
    if name in fields then Some(fields[name]) else None
  }

  /** The value of a resource in a request, if it has one. */
  function Value(r: Resources, m: Message, name: string): (v: Option<real>)
    requires Request(m)
  {
    match m
    case Log(_, _, _, _, fields, _, _) =>
      if name == "total_time" then Some(Lasting(fields, name))
      else if name == "other_time" then Some(Lasting(fields, "total_time") - SumUp(fields, r.otherTimes))
      else if name == "allocated_memory" && name !in fields then
        if "allocated_objects" in fields && "allocated_bytes" in fields
        then Some(fields["allocated_bytes"] + 40.0 * fields["allocated_objects"]) else None
      else Stated(fields, name)
    case FrontendPage(_, _, _, _, fields, _, _) =>
      if name == "page_time" || name == "frontend_time" then Some(Lasting(fields, "page_time"))
      else Stated(fields, name)
    case FrontendAjax(_, _, _, _, fields, _) =>
      if name == "ajax_time" || name == "frontend_time" then Some(Lasting(fields, "ajax_time"))
      else Stated(fields, name)
  }

  // ----- apdex scores

  /** The time by which a family of scores rates a message. */
  function RatedTime(m: Message, family: Family): (t: Option<real>) {
    match family
    case Apdex => if BackendRequest(m) then Some(Lasting(m.fields, "total_time")) else None
    case Fapdex =>
      if PageRequest(m) then Some(Lasting(m.fields, "page_time"))
      else if AjaxRequest(m) then Some(Lasting(m.fields, "ajax_time"))
      else None
    case Papdex => if PageRequest(m) then Some(m.apdexTime) else None
    case Xapdex => if AjaxRequest(m) then Some(Lasting(m.fields, "ajax_time")) else None
  }

  predicate AtLevel(family: Family, level: Level, t: real) {
    if family == Apdex then
      match level
      case Happy => t < 100.0
      case Satisfied => t < 500.0
      case Tolerating => 500.0 <= t < 2000.0
      case Frustrated => 2000.0 <= t
    else
      match level
      case Happy => t < 500.0
      case Satisfied => t < 2000.0
      case Tolerating => 2000.0 <= t < 8000.0
      case Frustrated => 8000.0 <= t
  }

  predicate Tagged(m: Message, tag: Tag) {
    match tag
    case Score(family, level) =>
      var t := RatedTime(m, family);
      t.Some? && AtLevel(family, level, t.value)
    case Named(name) => (BackendRequest(m) && name in m.tags) || (ScriptError(m) && name == m.tag)
  }

  // ----- buckets

  function PowerOfTen(n: nat): (p: nat) { if n == 0 then 1 else 10 * PowerOfTen(n - 1) }

  /** 1, 3, 10, 30, 100, ... */
  function Limit(k: nat): (limit: nat) { (if k % 2 == 0 then 1 else 3) * PowerOfTen(k / 2) }

  /** The limits of bucket `k`, in units of `scale`; the first has no lower and the last of the 22 no upper one. */
  predicate InBucket(v: real, k: nat, scale: nat) {
    && k < 22
    && (k > 0 ==> (Limit(k - 1) * scale) as real < v)
    && (k < 21 ==> v <= (Limit(k) * scale) as real)
  }

  /** The kind of the quants that resource `i` has, and their unit. */
  predicate QuantsOf(r: Resources, i: nat, kind: char, scale: nat) {
    || (i <= r.lastTime && kind == 't' && scale == 1)
    || (r.lastTime < i == r.allocatedObjects && kind == 'm' && scale == 1)
    || (r.lastTime < i == r.allocatedBytes != r.allocatedObjects && kind == 'm' && scale == 1024)
    || (r.lastTime < i && i != r.allocatedObjects && i != r.allocatedBytes && r.lastHeap < i <= r.lastFrontend
        && kind == 'f' && scale == 1)
  }

  /** A positive value of resource `i` counts under the upper limit of its bucket. */
  ghost predicate InQuant(r: Resources, i: nat, v: real, kind: char, quant: nat) {
    v > 0.0 && exists k: nat, scale: nat ::
      QuantsOf(r, i, kind, scale) && InBucket(v, k, scale) && quant == Limit(k) * scale
  }

  /** The time whose histogram a request is counted in. */
  predicate HistogramTime(m: Message, resource: string, t: real) {
    || (BackendRequest(m) && resource == "total_time" && t == Lasting(m.fields, resource))
    || (PageRequest(m) && resource == "page_time" && t == Lasting(m.fields, resource))
    || (AjaxRequest(m) && resource == "ajax_time" && t == Lasting(m.fields, resource))
  }

  // ----- user agents

  predicate FrontendMessage(m: Message) { m.FrontendPage? || m.FrontendAjax? }

  predicate SentBy(m: Message, agent: string) {
    (BackendRequest(m) || FrontendMessage(m)) && m.agent == Some(agent)
  }

  predicate Dropped(m: Message) { FrontendMessage(m) && !Request(m) }

  /** The reasons are numbered as in the source. */
  predicate DroppedFor(m: Message, reason: nat) {
    Dropped(m) &&
    match m.early
    case AcceptedMsg => reason == 1
    case Outlier => reason == 1
    case NavTiming => reason == 2
    case Illegal => reason == 3
    case Corrupted => reason == 4
    case Invalid => reason == 5
  }
}
