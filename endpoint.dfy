/**
 * How the endpoint functions fill their `params` dictionary: each optional
 * argument is stored under its API name only when it is truthy, the way
 * every `if x: params['name'] = x` line of the endpoint modules does.
 */
module Endpoint {
  import opened Params
  import opened Convert

  /**
   * An argument as an endpoint stores it: a plain value, a list that
   * commasep joins, or an order time that parseOTime checks.
   */
  datatype Arg = Scalar(v: Value) | Listed(items: seq<string>) | OrderTime(t: string)

  /** The `if x:` test: a truthy value, a non-empty list, a non-empty time. */
  predicate Given(a: Arg) {
    match a
    case Scalar(v) => Truthy(v)
    case Listed(items) => |items| > 0
    case OrderTime(t) => t != ""
  }

  /**
   * What is stored for a given argument. An order time stores what
   * parseOTime returns for it, and that is None whenever the time is
   * accepted (OrderTimePosted).
   */
  function Posted(a: Arg): Value {
    match a
    case Scalar(v) => v
    case Listed(items) => StrV(Join(items, ","))
    case OrderTime(_) => NoneV
  }

  lemma OrderTimePosted(t: string)
    requires ParseOTime(t).Success?
    ensures Posted(OrderTime(t)) == ParseOTime(t).value
  {
  }

  /**
   * A list posted comma-joined can be read back by splitting on the comma,
   * as long as no element holds a comma itself.
   */
  lemma ListedRoundTrip(items: seq<string>)
    requires |items| > 0
    requires forall i :: 0 <= i < |items| ==> ',' !in items[i]
    ensures Given(Listed(items))
    ensures SplitOn(Posted(Listed(items)).s, ',') == items
  {
    JoinSplitRoundTrip(items, ',');
  }

  /** The key is present exactly when the argument is given, and then holds what is stored for it. */
  predicate Sends(params: map<string, Value>, key: string, a: Arg) {
    && (key in params <==> Given(a))
    && (key in params ==> params[key] == Posted(a))
  }

  /**
   * The `if x: params[name] = x` lines an endpoint runs, oldest first:
   * `Start.Then("pair", p).Then("count", c)` is the two lines storing p
   * under "pair" and then c under "count".
   */
  datatype Lines = Start | Line(before: Lines, name: string, arg: Arg) {
    function Then(name: string, arg: Arg): Lines {
      Line(this, name, arg)
    }
  }

  /** The names a run of lines stores under, oldest first. */
  datatype Keys = NoKeys | Key(before: Keys, name: string) {
    function Then(name: string): Keys {
      Key(this, name)
    }
  }

  function KeysOf(lines: Lines): Keys {
    match lines
    case Start => NoKeys
    case Line(before, name, _) => Key(KeysOf(before), name)
  }

  /** The names the lines store under, as a set. */
  function Names(lines: Lines): set<string> {
    match lines
    case Start => {}
    case Line(before, name, _) => Names(before) + {name}
  }

  /** No key in `keys` is `name`. */
  predicate Fresh(name: string, keys: Keys) {
    match keys
    case NoKeys => true
    case Key(before, other) => other != name && Fresh(name, before)
  }

  /** No name occurs twice. */
  predicate Distinct(keys: Keys) {
    match keys
    case NoKeys => true
    case Key(before, name) => Fresh(name, before) && Distinct(before)
  }

  lemma {:induction false} FreshNotInNames(name: string, lines: Lines)
    requires Fresh(name, KeysOf(lines))
    ensures name !in Names(lines)
  {
    if lines.Line? {
      FreshNotInNames(name, lines.before);
    }
  }

  /** Every line's argument is sent as Sends says. */
  predicate SendsAll(params: map<string, Value>, lines: Lines) {
    match lines
    case Start => true
    case Line(before, name, arg) => Sends(params, name, arg) && SendsAll(params, before)
  }

  /** Every line's argument is sent as Sends says, and no key the lines do not name is present. */
  predicate Posts(params: map<string, Value>, lines: Lines) {
    SendsAll(params, lines) && params.Keys <= Names(lines)
  }

  /** The dictionary that running the lines on an empty one leaves. */
  function Build(lines: Lines): map<string, Value> {
    match lines
    case Start => map[]
    case Line(before, name, arg) =>
      if Given(arg) then Build(before)[name := Posted(arg)] else Build(before)
  }

  /** Storing under a name no line uses leaves what the lines send unchanged. */
  lemma {:induction false} SendsAllFrame(params: map<string, Value>, lines: Lines, key: string, v: Value)
    requires SendsAll(params, lines)
    requires key !in Names(lines)
    ensures SendsAll(params[key := v], lines)
  {
    if lines.Line? {
      SendsAllFrame(params, lines.before, key, v);
    }
  }

  /** With distinct names, every argument ends up sent as Sends says, and nothing else is. */
  lemma {:induction false} BuildPosts(lines: Lines)
    requires Distinct(KeysOf(lines))
    ensures Posts(Build(lines), lines)
  {
    if lines.Line? {
      BuildPosts(lines.before);
      var before := Build(lines.before);
      FreshNotInNames(lines.name, lines.before);
      if Given(lines.arg) {
        SendsAllFrame(before, lines.before, lines.name, Posted(lines.arg));
      }
    }
  }

  /**
   * One `if x: params[name] = x` line, run after `lines`: the line is
   * appended to them.
   */
  method Store(ghost lines: Lines, params: map<string, Value>, name: string, arg: Arg)
    returns (r: map<string, Value>, ghost after: Lines)
    requires params == Build(lines)
    ensures after == lines.Then(name, arg) && r == Build(after)
    ensures KeysOf(after) == KeysOf(lines).Then(name)
    ensures Given(arg) ==> r == params[name := Posted(arg)]
    ensures !Given(arg) ==> r == params
  {
    after := lines.Then(name, arg);
    r := params;
    if Given(arg) {
      r := r[name := Posted(arg)];
    }
  }
}
