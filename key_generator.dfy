/**
 * The default key generator. A call (target class, method, declared parameters,
 * argument values) becomes the composite string `Cls#method(a1,a2,...)`, where
 * each argument is rendered by a recursive dispatch on its kind, and the key is
 * the hash of that string. The hash (MD5 in the original) is a parameter.
 */
module KeyGen {
  import opened Wrappers

  /**
   * An argument value, classified by the first branch of the dispatch that
   * accepts it: a key-bearing value before a string, a string before a
   * primitive, and so on.
   */
  datatype Arg =
    | Keyed(keyText: string)          // implements SharedFutureKey; renders as getKey()
    | Str(text: string)               // java.lang.String
    | Int(n: int)                     // byte, short, int, long and their wrappers
    | Bool(b: bool)                   // boolean and Boolean
    | Char(c: char)                   // char and Character
    | Floating(decimalText: string)   // float, double and wrappers: the text is their toString
    | Collection(elements: seq<Arg>)  // a java.util.Collection, in iteration order
    | MapOf(entrySet: seq<Arg>)       // a java.util.Map, as its entrySet() in iteration order
    | Entry(entryKey: Arg, entryValue: Arg)  // a Map.Entry
    | Null                            // a null reference
    | Other(className: string)        // any other type

  /** A map whose entry set holds these key/value pairs, in this order. */
  function MapOfPairs(pairs: seq<(Arg, Arg)>): (a: Arg)
    ensures a.MapOf? && |a.entrySet| == |pairs|
    ensures forall i :: 0 <= i < |pairs| ==> a.entrySet[i] == Entry(pairs[i].0, pairs[i].1)
  {
    MapOf(seq(|pairs|, i requires 0 <= i < |pairs| => Entry(pairs[i].0, pairs[i].1)))
  }

  /** The top-level parameter being rendered, as the error message names it. */
  datatype Site = Site(targetClass: string, methodName: string, paramName: string)

  /** One intercepted call: the target's class name, the method, its declared parameter names, the arguments. */
  datatype Call = Call(targetClass: string, methodName: string, paramNames: seq<string>, args: seq<Arg>)

  /** The site of the argument at `index`: the parameter declared there. */
  function SiteOf(call: Call, index: nat): (s: Site)
    requires index < |call.paramNames|
    ensures s.paramName == call.paramNames[index]
    ensures s.targetClass == call.targetClass && s.methodName == call.methodName
  {
    Site(call.targetClass, call.methodName, call.paramNames[index])
  }

  datatype KeyError =
    | UnsupportedType(typeName: string, site: Site)  // IllegalArgumentException
    | NullArgument                                   // NullPointerException from arg.getClass()
    | MissingParameter(index: nat, declared: nat)    // ArrayIndexOutOfBoundsException on params[i]

  // ---------------------------------------------------------------------------
  // Rendering, as specification functions
  // ---------------------------------------------------------------------------

  function DigitChar(d: nat): char
    requires d < 10
  {
    "0123456789"[d]
  }

  /** Decimal digits of a natural number, most significant first, without leading zeros. */
  function Digits(n: nat): string
    decreases n
  {
    if n < 10 then [DigitChar(n)] else Digits(n / 10) + [DigitChar(n % 10)]
  }

  /** Java's Long.toString / Integer.toString. */
  function Decimal(n: int): string {
    if n < 0 then "-" + Digits(-n) else Digits(n)
  }

  /** The parts separated by commas: a comma between two parts, none before the first or after the last. */
  function Join(parts: seq<string>): string {
    if |parts| == 0 then ""
    else if |parts| == 1 then parts[0]
    else Join(parts[..|parts| - 1]) + "," + parts[|parts| - 1]
  }

  /** The rendering of one argument (getParamKey); a failure is the exception it throws. */
  function Render(a: Arg, site: Site): Result<string, KeyError>
    decreases a, 2
  {
    match a
    case Keyed(k) => Success(k)
    case Str(s) => Success(s)
    case Int(n) => Success(Decimal(n))
    case Bool(b) => Success(if b then "true" else "false")
    case Char(c) => Success([c])
    case Floating(t) => Success(t)
    case Collection(es) => RenderList(es, site)
    case MapOf(es) => RenderList(es, site)
    case Entry(k, v) =>
      (match Render(k, site)
       case Failure(e) => Failure(e)
       case Success(ks) =>
         match Render(v, site)
         case Failure(e) => Failure(e)
         case Success(vs) => Success(ks + "=" + vs))
    case Null => Failure(NullArgument)
    case Other(cn) => Failure(UnsupportedType(cn, site))
  }

  /** A collection, or the entry set of a map: the elements in brackets, separated by commas. */
  function RenderList(es: seq<Arg>, site: Site): Result<string, KeyError>
    decreases es, 1
  {
    match RenderAll(es, site)
    case Failure(e) => Failure(e)
    case Success(ps) => Success("[" + Join(ps) + "]")
  }

  /** The renderings of the elements in order, or the failure of the first element that fails. */
  function RenderAll(es: seq<Arg>, site: Site): Result<seq<string>, KeyError>
    decreases es, 0
  {
    if es == [] then Success([])
    else
      match RenderAll(es[..|es| - 1], site)
      case Failure(e) => Failure(e)
      case Success(ps) =>
        match Render(es[|es| - 1], site)
        case Failure(e) => Failure(e)
        case Success(p) => Success(ps + [p])
  }

  /** The renderings of the call's arguments, each named by its declared parameter. */
  function RenderArgs(args: seq<Arg>, call: Call): Result<seq<string>, KeyError>
    decreases args
  {
    if args == [] then Success([])
    else
      var i := |args| - 1;
      match RenderArgs(args[..i], call)
      case Failure(e) => Failure(e)
      case Success(ps) =>
        if i >= |call.paramNames| then Failure(MissingParameter(i, |call.paramNames|))
        else
          match Render(args[i], SiteOf(call, i))
          case Failure(e) => Failure(e)
          case Success(p) => Success(ps + [p])
  }

  /** The string that generate hashes. */
  function CompositeKey(call: Call): Result<string, KeyError> {
    match RenderArgs(call.args, call)
    case Failure(e) => Failure(e)
    case Success(ps) => Success(call.targetClass + "#" + call.methodName + "(" + Join(ps) + ")")
  }

  /** The key generate returns: the hash of the composite string. */
  function Key(hash: string -> string, call: Call): Result<string, KeyError> {
    match CompositeKey(call)
    case Failure(e) => Failure(e)
    case Success(s) => Success(hash(s))
  }

  // ---------------------------------------------------------------------------
  // Independent descriptions of the rendering
  // ---------------------------------------------------------------------------

  /** No null and no value of an unsupported type, at any depth. */
  predicate Supported(a: Arg)
    decreases a
  {
    match a
    case Collection(es) => forall i :: 0 <= i < |es| ==> Supported(es[i])
    case MapOf(es) => forall i :: 0 <= i < |es| ==> Supported(es[i])
    case Entry(k, v) => Supported(k) && Supported(v)
    case Null => false
    case Other(_) => false
    case _ => true
  }

  /** A value of the unsupported class `cn` occurs in `a`. */
  predicate HasOther(a: Arg, cn: string)
    decreases a
  {
    match a
    case Collection(es) => exists i :: 0 <= i < |es| && HasOther(es[i], cn)
    case MapOf(es) => exists i :: 0 <= i < |es| && HasOther(es[i], cn)
    case Entry(k, v) => HasOther(k, cn) || HasOther(v, cn)
    case Other(c) => c == cn
    case _ => false
  }

  /** The last index of ',' in `s`, if any. */
  function LastComma(s: string): (r: Option<nat>)
    ensures r.Some? ==> r.value < |s| && s[r.value] == ','
    ensures r.Some? ==> forall j :: r.value < j < |s| ==> s[j] != ','
    ensures r.None? ==> forall j :: 0 <= j < |s| ==> s[j] != ','
  {
    if s == [] then None
    else if s[|s| - 1] == ',' then Some(|s| - 1)
    else LastComma(s[..|s| - 1])
  }

  /** Cut `s` at every comma: the inverse of Join on comma-free parts. */
  function Split(s: string): seq<string>
    decreases |s|
  {
    match LastComma(s)
    case None => [s]
    case Some(i) => Split(s[..i]) + [s[i + 1..]]
  }

  // ---------------------------------------------------------------------------
  // Lemmas
  // ---------------------------------------------------------------------------

  /** A failure in a prefix of the elements is the failure of the whole sequence. */
  lemma {:induction false} RenderAllPrefixFailure(es: seq<Arg>, j: nat, site: Site)
    requires j <= |es|
    requires RenderAll(es[..j], site).Failure?
    ensures RenderAll(es, site) == RenderAll(es[..j], site)
    decreases |es| - j
  {
    if j < |es| {
      var es' := es[..j + 1];
      assert es'[..j] == es[..j];
      assert RenderAll(es', site) == RenderAll(es[..j], site);
      assert es[..j + 1][..j + 1] == es[..j + 1];
      RenderAllPrefixFailure(es, j + 1, site);
    } else {
      assert es[..j] == es;
    }
  }

  /** Appending an element appends its rendering, unless something failed earlier. */
  lemma RenderAllSnoc(es: seq<Arg>, x: Arg, site: Site)
    ensures RenderAll(es + [x], site)
         == match RenderAll(es, site)
            case Failure(e) => Failure(e)
            case Success(ps) =>
              match Render(x, site) case Failure(e) => Failure(e) case Success(p) => Success(ps + [p])
  {
    assert (es + [x])[..|es|] == es;
  }

  /** One more element: the rendering of the prefix extended by that of the element. */
  lemma RenderAllStep(es: seq<Arg>, i: nat, site: Site, parts: seq<string>)
    requires i < |es| && RenderAll(es[..i], site) == Success(parts)
    ensures RenderAll(es[..i + 1], site)
         == match Render(es[i], site) case Failure(e) => Failure(e) case Success(p) => Success(parts + [p])
  {
    assert es[..i + 1][..i] == es[..i];
  }

  /** One more argument, named by the parameter declared at its position. */
  lemma RenderArgsStep(args: seq<Arg>, i: nat, call: Call, parts: seq<string>)
    requires i < |args| && RenderArgs(args[..i], call) == Success(parts)
    ensures i >= |call.paramNames| ==> RenderArgs(args[..i + 1], call) == Failure(MissingParameter(i, |call.paramNames|))
    ensures i < |call.paramNames| ==>
              RenderArgs(args[..i + 1], call)
              == match Render(args[i], SiteOf(call, i))
                 case Failure(e) => Failure(e) case Success(p) => Success(parts + [p])
  {
    assert args[..i + 1][..i] == args[..i];
  }

  /** The same for the top-level arguments. */
  lemma {:induction false} RenderArgsPrefixFailure(args: seq<Arg>, j: nat, call: Call)
    requires j <= |args|
    requires RenderArgs(args[..j], call).Failure?
    ensures RenderArgs(args, call) == RenderArgs(args[..j], call)
    decreases |args| - j
  {
    if j < |args| {
      assert args[..j + 1][..j] == args[..j];
      RenderArgsPrefixFailure(args, j + 1, call);
    } else {
      assert args[..j] == args;
    }
  }

  /** Rendering succeeds exactly when the value holds no null and no unsupported type, at any depth. */
  lemma {:induction false} RenderSucceedsIffSupported(a: Arg, site: Site)
    ensures Render(a, site).Success? <==> Supported(a)
    decreases a, 1
  {
    match a
    case Collection(es) => RenderAllSucceedsIffSupported(es, site);
    case MapOf(es) => RenderAllSucceedsIffSupported(es, site);
    case Entry(k, v) =>
      RenderSucceedsIffSupported(k, site);
      RenderSucceedsIffSupported(v, site);
    case _ =>
  }

  /** Rendering a sequence succeeds exactly when every element is supported. */
  lemma {:induction false} RenderAllSucceedsIffSupported(es: seq<Arg>, site: Site)
    ensures RenderAll(es, site).Success? <==> forall i :: 0 <= i < |es| ==> Supported(es[i])
    decreases es, 0
  {
    if es != [] {
      var init := es[..|es| - 1];
      RenderAllSucceedsIffSupported(init, site);
      RenderSucceedsIffSupported(es[|es| - 1], site);
      assert forall i :: 0 <= i < |init| ==> init[i] == es[i];
    }
  }

  /** A successful rendering of a sequence renders each element on its own, in order. */
  lemma {:induction false} RenderAllPointwise(es: seq<Arg>, site: Site)
    requires RenderAll(es, site).Success?
    ensures |RenderAll(es, site).value| == |es|
    ensures forall i :: 0 <= i < |es| ==> Render(es[i], site) == Success(RenderAll(es, site).value[i])
  {
    if es != [] {
      var init := es[..|es| - 1];
      RenderAllPointwise(init, site);
      assert forall i :: 0 <= i < |init| ==> init[i] == es[i];
    }
  }

  /** An IllegalArgumentException names the top-level parameter and a class that occurs in the value. */
  lemma {:induction false} UnsupportedNamesOffender(a: Arg, site: Site)
    requires Render(a, site).Failure? && Render(a, site).error.UnsupportedType?
    ensures Render(a, site).error.site == site
    ensures HasOther(a, Render(a, site).error.typeName)
    decreases a, 1
  {
    match a
    case Collection(es) => RenderAllUnsupportedNamesOffender(es, site);
    case MapOf(es) => RenderAllUnsupportedNamesOffender(es, site);
    case Entry(k, v) =>
      if Render(k, site).Failure? {
        UnsupportedNamesOffender(k, site);
      } else {
        UnsupportedNamesOffender(v, site);
      }
    case _ =>
  }

  lemma {:induction false} RenderAllUnsupportedNamesOffender(es: seq<Arg>, site: Site)
    requires RenderAll(es, site).Failure? && RenderAll(es, site).error.UnsupportedType?
    ensures RenderAll(es, site).error.site == site
    ensures exists i :: 0 <= i < |es| && HasOther(es[i], RenderAll(es, site).error.typeName)
    decreases es, 0
  {
    var init := es[..|es| - 1];
    if RenderAll(init, site).Failure? {
      RenderAllUnsupportedNamesOffender(init, site);
      var i :| 0 <= i < |init| && HasOther(init[i], RenderAll(init, site).error.typeName);
      assert init[i] == es[i];
    } else {
      UnsupportedNamesOffender(es[|es| - 1], site);
    }
  }

  /** A value of an unsupported class, at any depth, makes the value unsupported, so its rendering fails. */
  lemma {:induction false} HasOtherUnsupported(a: Arg, cn: string, site: Site)
    requires HasOther(a, cn)
    ensures !Supported(a) && Render(a, site).Failure?
    decreases a
  {
    match a {
      case Collection(es) =>
        var i :| 0 <= i < |es| && HasOther(es[i], cn);
        HasOtherUnsupported(es[i], cn, site);
      case MapOf(es) =>
        var i :| 0 <= i < |es| && HasOther(es[i], cn);
        HasOtherUnsupported(es[i], cn, site);
      case Entry(k, v) =>
        if HasOther(k, cn) {
          HasOtherUnsupported(k, cn, site);
        } else {
          HasOtherUnsupported(v, cn, site);
        }
      case _ =>
    }
    RenderSucceedsIffSupported(a, site);
  }

  /** The arguments render exactly when each has a declared parameter and is supported. */
  lemma {:induction false} RenderArgsSucceedsIff(args: seq<Arg>, call: Call)
    ensures RenderArgs(args, call).Success?
        <==> |args| <= |call.paramNames| && forall i :: 0 <= i < |args| ==> Supported(args[i])
  {
    if args != [] {
      var n := |args| - 1;
      var init := args[..n];
      RenderArgsSucceedsIff(init, call);
      assert forall i :: 0 <= i < n ==> init[i] == args[i];
      if n < |call.paramNames| {
        RenderSucceedsIffSupported(args[n], SiteOf(call, n));
      }
    }
  }

  /**
   * An IllegalArgumentException from the arguments names the parameter of an
   * argument in which the named class really occurs.
   */
  lemma {:induction false} RenderArgsUnsupportedNamesOffender(args: seq<Arg>, call: Call)
    requires RenderArgs(args, call).Failure? && RenderArgs(args, call).error.UnsupportedType?
    ensures exists i :: 0 <= i < |args| && i < |call.paramNames|
              && RenderArgs(args, call).error.site == SiteOf(call, i)
              && HasOther(args[i], RenderArgs(args, call).error.typeName)
  {
    var n := |args| - 1;
    var init := args[..n];
    if RenderArgs(init, call).Failure? {
      RenderArgsUnsupportedNamesOffender(init, call);
      var i :| 0 <= i < |init| && i < |call.paramNames|
               && RenderArgs(init, call).error.site == SiteOf(call, i)
               && HasOther(init[i], RenderArgs(init, call).error.typeName);
      assert init[i] == args[i];
    } else {
      UnsupportedNamesOffender(args[n], SiteOf(call, n));
    }
  }

  /** `generate` succeeds exactly when every argument has a declared parameter and is supported. */
  lemma KeySucceedsIff(hash: string -> string, call: Call)
    ensures Key(hash, call).Success?
        <==> |call.args| <= |call.paramNames| && forall i :: 0 <= i < |call.args| ==> Supported(call.args[i])
  {
    RenderArgsSucceedsIff(call.args, call);
  }

  /**
   * An IllegalArgumentException from `generate` names the target class, the
   * method, and the parameter of an argument in which the named class occurs.
   */
  lemma KeyUnsupportedNamesOffender(hash: string -> string, call: Call)
    requires Key(hash, call).Failure? && Key(hash, call).error.UnsupportedType?
    ensures var e := Key(hash, call).error;
            e.site.targetClass == call.targetClass && e.site.methodName == call.methodName
            && exists i :: 0 <= i < |call.args| && i < |call.paramNames|
                 && e.site.paramName == call.paramNames[i] && HasOther(call.args[i], e.typeName)
  {
    RenderArgsUnsupportedNamesOffender(call.args, call);
  }

  /** Splitting a joined list of comma-free parts gives the parts back. */
  lemma {:induction false} SplitJoin(parts: seq<string>)
    requires |parts| >= 1
    requires forall i, j :: 0 <= i < |parts| && 0 <= j < |parts[i]| ==> parts[i][j] != ','
    ensures Split(Join(parts)) == parts
  {
    var n := |parts|;
    if n == 1 {
      assert LastComma(parts[0]).None?;
    } else {
      var init := parts[..n - 1];
      var last := parts[n - 1];
      var head := Join(init);
      var s := head + "," + last;
      assert Join(parts) == s;
      assert s[|head|] == ',';
      assert forall j :: |head| < j < |s| ==> s[j] == last[j - |head| - 1];
      var lc := LastComma(s);
      assert lc == Some(|head|);
      assert s[..|head|] == head;
      assert s[|head| + 1..] == last;
      SplitJoin(init);
      assert parts == init + [last];
    }
  }

  /** The last digit character is the last decimal digit; shorter numbers have shorter renderings. */
  lemma {:induction false} DigitsInjective(a: nat, b: nat)
    requires Digits(a) == Digits(b)
    ensures a == b
    decreases a
  {
    if a >= 10 && b >= 10 {
      var da, db := Digits(a / 10), Digits(b / 10);
      assert Digits(a)[|Digits(a)| - 1] == DigitChar(a % 10);
      assert Digits(b)[|Digits(b)| - 1] == DigitChar(b % 10);
      assert Digits(a)[..|da|] == da;
      assert Digits(b)[..|db|] == db;
      DigitsInjective(a / 10, b / 10);
    } else if a >= 10 {
      DigitsNonEmpty(a / 10);
    } else if b >= 10 {
      DigitsNonEmpty(b / 10);
    }
  }

  lemma {:induction false} DigitsNonEmpty(n: nat)
    ensures |Digits(n)| >= 1 && Digits(n)[0] != '-'
    decreases n
  {
    if n >= 10 {
      DigitsNonEmpty(n / 10);
    }
  }

  /** Distinct integers have distinct renderings. */
  lemma DecimalInjective(a: int, b: int)
    requires Decimal(a) == Decimal(b)
    ensures a == b
  {
    if a < 0 && b < 0 {
      assert Decimal(a)[1..] == Digits(-a);
      assert Decimal(b)[1..] == Digits(-b);
      DigitsInjective(-a, -b);
    } else if a < 0 {
      DigitsNonEmpty(b);
    } else if b < 0 {
      DigitsNonEmpty(a);
    } else {
      DigitsInjective(a, b);
    }
  }

  /** With no arguments the composite string is exactly `Cls#m()`. */
  lemma NoArgsComposite(targetClass: string, methodName: string, paramNames: seq<string>)
    ensures CompositeKey(Call(targetClass, methodName, paramNames, [])) == Success(targetClass + "#" + methodName + "()")
  {
    assert targetClass + "#" + methodName + "(" + Join([]) + ")" == targetClass + "#" + methodName + "()";
  }

  /**
   * Class names hold no '#' and method names no '(': then equal composite strings
   * come from the same class and the same method.
   */
  lemma DistinctMethodsDistinctComposite(c1: Call, c2: Call)
    requires forall j :: 0 <= j < |c1.targetClass| ==> c1.targetClass[j] != '#'
    requires forall j :: 0 <= j < |c2.targetClass| ==> c2.targetClass[j] != '#'
    requires forall j :: 0 <= j < |c1.methodName| ==> c1.methodName[j] != '('
    requires forall j :: 0 <= j < |c2.methodName| ==> c2.methodName[j] != '('
    requires CompositeKey(c1).Success? && CompositeKey(c1) == CompositeKey(c2)
    ensures c1.targetClass == c2.targetClass && c1.methodName == c2.methodName
  {
    var s := CompositeKey(c1).value;
    var t1, t2 := c1.targetClass, c2.targetClass;
    var rest1 := c1.methodName + "(" + Join(RenderArgs(c1.args, c1).value) + ")";
    var rest2 := c2.methodName + "(" + Join(RenderArgs(c2.args, c2).value) + ")";
    assert s == t1 + "#" + rest1 == t2 + "#" + rest2;
    FirstMarker(t1, t2, rest1, rest2, '#');
    assert rest1 == rest2;
    var m1, m2 := c1.methodName, c2.methodName;
    var a1 := Join(RenderArgs(c1.args, c1).value) + ")";
    var a2 := Join(RenderArgs(c2.args, c2).value) + ")";
    assert rest1 == m1 + "(" + a1 && rest2 == m2 + "(" + a2;
    FirstMarker(m1, m2, a1, a2, '(');
  }

  /** The position of the first `mark` in `s`, if any. */
  function FirstIndex(s: string, mark: char): Option<nat>
    decreases |s|
  {
    if s == [] then None
    else if s[0] == mark then Some(0)
    else match FirstIndex(s[1..], mark)
      case None => None
      case Some(i) => Some(i + 1)
  }

  lemma {:induction false} FirstIndexAfterPrefix(p: string, r: string, mark: char)
    requires forall j :: 0 <= j < |p| ==> p[j] != mark
    ensures FirstIndex(p + [mark] + r, mark) == Some(|p|)
    decreases |p|
  {
    var s := p + [mark] + r;
    if p != [] {
      assert s[1..] == p[1..] + [mark] + r;
      FirstIndexAfterPrefix(p[1..], r, mark);
    }
  }

  /** A prefix free of `mark`, followed by `mark`, is determined by the whole string. */
  lemma FirstMarker(p1: string, p2: string, r1: string, r2: string, mark: char)
    requires forall j :: 0 <= j < |p1| ==> p1[j] != mark
    requires forall j :: 0 <= j < |p2| ==> p2[j] != mark
    requires p1 + [mark] + r1 == p2 + [mark] + r2
    ensures p1 == p2 && r1 == r2
  {
    var s := p1 + [mark] + r1;
    FirstIndexAfterPrefix(p1, r1, mark);
    FirstIndexAfterPrefix(p2, r2, mark);
    assert p1 == s[..|p1|] == p2;
    assert r1 == s[|p1| + 1..] == r2;
  }

  /** Calls of one method that differ in a single int argument get different composite strings. */
  lemma DistinctIntArgsDistinctComposite(targetClass: string, methodName: string, paramName: string, a: int, b: int)
    requires a != b
    ensures CompositeKey(Call(targetClass, methodName, [paramName], [Int(a)]))
         != CompositeKey(Call(targetClass, methodName, [paramName], [Int(b)]))
  {
    var ca := Call(targetClass, methodName, [paramName], [Int(a)]);
    var cb := Call(targetClass, methodName, [paramName], [Int(b)]);
    var pre := targetClass + "#" + methodName + "(";
    SingleIntComposite(ca, a);
    SingleIntComposite(cb, b);
    var sa, sb := pre + Decimal(a) + ")", pre + Decimal(b) + ")";
    if sa == sb {
      assert sa[|pre|..|sa| - 1] == Decimal(a);
      assert sb[|pre|..|sb| - 1] == Decimal(b);
      DecimalInjective(a, b);
    }
  }

  lemma SingleIntComposite(c: Call, a: int)
    requires c.args == [Int(a)] && |c.paramNames| >= 1
    ensures CompositeKey(c) == Success(c.targetClass + "#" + c.methodName + "(" + Decimal(a) + ")")
  {
    assert c.args[..0] == [];
    assert RenderArgs([], c) == Success([]);
    assert Render(Int(a), Site(c.targetClass, c.methodName, c.paramNames[0])) == Success(Decimal(a));
    assert RenderArgs(c.args, c) == Success([] + [Decimal(a)]);
    assert [] + [Decimal(a)] == [Decimal(a)];
    assert Join([Decimal(a)]) == Decimal(a);
  }

  /** Elements that each render on their own render together, in order. */
  lemma {:induction false} RenderAllOf(es: seq<Arg>, parts: seq<string>, site: Site)
    requires |parts| == |es|
    requires forall i :: 0 <= i < |es| ==> Render(es[i], site) == Success(parts[i])
    ensures RenderAll(es, site) == Success(parts)
  {
    if es != [] {
      var n := |es| - 1;
      RenderAllOf(es[..n], parts[..n], site);
      assert parts == parts[..n] + [parts[n]];
    }
  }

  /** A collection whose elements render as `parts` renders as `[` + the parts joined + `]`. */
  lemma RenderListOf(es: seq<Arg>, parts: seq<string>, site: Site)
    requires |parts| == |es|
    requires forall i :: 0 <= i < |es| ==> Render(es[i], site) == Success(parts[i])
    ensures Render(Collection(es), site) == Success("[" + Join(parts) + "]")
    ensures Render(MapOf(es), site) == Success("[" + Join(parts) + "]")
  {
    RenderAllOf(es, parts, site);
  }

  /** Arguments that each render, each with a declared parameter, render together. */
  lemma {:induction false} RenderArgsOf(args: seq<Arg>, call: Call, parts: seq<string>)
    requires |parts| == |args| <= |call.paramNames|
    requires forall i :: 0 <= i < |args| ==> Render(args[i], SiteOf(call, i)) == Success(parts[i])
    ensures RenderArgs(args, call) == Success(parts)
  {
    if args != [] {
      var n := |args| - 1;
      RenderArgsOf(args[..n], call, parts[..n]);
      assert parts == parts[..n] + [parts[n]];
    }
  }

  /**
   * The composite string is the class, '#', the method, and the argument
   * renderings joined by commas in parentheses.
   */
  lemma CompositeOf(call: Call, parts: seq<string>)
    requires |parts| == |call.args| <= |call.paramNames|
    requires forall i :: 0 <= i < |call.args| ==> Render(call.args[i], SiteOf(call, i)) == Success(parts[i])
    ensures CompositeKey(call) == Success(call.targetClass + "#" + call.methodName + "(" + Join(parts) + ")")
  {
    RenderArgsOf(call.args, call, parts);
  }

  /** One more part: a comma, then the part. */
  lemma JoinSnoc(parts: seq<string>, p: string)
    requires |parts| >= 1
    ensures Join(parts + [p]) == Join(parts) + "," + p
  {
    assert (parts + [p])[..|parts|] == parts;
  }

  lemma Join3(a: string, b: string, c: string)
    ensures Join([a, b, c]) == a + "," + b + "," + c
  {
    JoinSnoc([a], b);
    assert [a] + [b] == [a, b];
    JoinSnoc([a, b], c);
    assert [a, b] + [c] == [a, b, c];
  }

  lemma Join5(a: string, b: string, c: string, d: string, e: string)
    ensures Join([a, b, c, d, e]) == a + "," + b + "," + c + "," + d + "," + e
  {
    Join3(a, b, c);
    JoinSnoc([a, b, c], d);
    assert [a, b, c] + [d] == [a, b, c, d];
    JoinSnoc([a, b, c, d], e);
    assert [a, b, c, d] + [e] == [a, b, c, d, e];
  }

  /**
   * A call whose arguments render as `parts` has the composite string
   * `Cls` + `tail`, where `tail` reads `#m(` + the joined parts + `)`.
   */
  lemma CompositeWithTail(call: Call, parts: seq<string>, tail: string)
    requires |parts| == |call.args| <= |call.paramNames|
    requires forall i :: 0 <= i < |call.args| ==> Render(call.args[i], SiteOf(call, i)) == Success(parts[i])
    requires "#" + call.methodName + "(" + Join(parts) + ")" == tail
    ensures CompositeKey(call) == Success(call.targetClass + tail)
  {
    CompositeOf(call, parts);
    var cls, m, j := call.targetClass, call.methodName, Join(parts);
    assert cls + "#" + m + "(" + j + ")" == cls + ("#" + m + "(" + j + ")");
  }

  /** A three-element collection renders as `[x,y,z]`. */
  lemma TripleRendering(x: Arg, y: Arg, z: Arg, xs: string, ys: string, zs: string, site: Site)
    requires Render(x, site) == Success(xs) && Render(y, site) == Success(ys) && Render(z, site) == Success(zs)
    ensures Render(Collection([x, y, z]), site) == Success("[" + xs + "," + ys + "," + zs + "]")
    ensures Render(MapOf([x, y, z]), site) == Success("[" + xs + "," + ys + "," + zs + "]")
  {
    RenderListOf([x, y, z], [xs, ys, zs], site);
    Join3(xs, ys, zs);
    assert "[" + (xs + "," + ys + "," + zs) + "]" == "[" + xs + "," + ys + "," + zs + "]";
  }

  lemma SmallDecimals()
    ensures Decimal(1) == "1" && Decimal(2) == "2" && Decimal(3) == "3"
  {
    assert DigitChar(1) == '1' && DigitChar(2) == '2' && DigitChar(3) == '3';
  }

  /** Three elements rendering as "one", "two", "three" make `[one,two,three]`. */
  lemma OneTwoThreeList(x: Arg, y: Arg, z: Arg, site: Site)
    requires Render(x, site) == Success("one") && Render(y, site) == Success("two") && Render(z, site) == Success("three")
    ensures Render(Collection([x, y, z]), site) == Success("[one,two,three]")
  {
    TripleRendering(x, y, z, "one", "two", "three", site);
    assert "[" + "one" + "," == "[one,";
    assert "[one," + "two" + "," == "[one,two,";
    assert "[one,two," + "three" + "]" == "[one,two,three]";
  }

  /** Entries whose keys render as "1", "2", "3" and whose values are "one", "two", "three". */
  lemma OneTwoThreeEntries(k1: Arg, k2: Arg, k3: Arg, site: Site)
    requires Render(k1, site) == Success("1") && Render(k2, site) == Success("2") && Render(k3, site) == Success("3")
    ensures Render(Entry(k1, Str("one")), site) == Success("1=one")
    ensures Render(Entry(k2, Str("two")), site) == Success("2=two")
    ensures Render(Entry(k3, Str("three")), site) == Success("3=three")
  {
    assert "1" + "=" + "one" == "1=one";
    assert "2" + "=" + "two" == "2=two";
    assert "3" + "=" + "three" == "3=three";
  }

  /** A three-entry map whose keys render as "1", "2", "3" and whose values are "one", "two", "three". */
  lemma OneTwoThreeMap(k1: Arg, k2: Arg, k3: Arg, site: Site)
    requires Render(k1, site) == Success("1") && Render(k2, site) == Success("2") && Render(k3, site) == Success("3")
    ensures Render(MapOfPairs([(k1, Str("one")), (k2, Str("two")), (k3, Str("three"))]), site)
         == Success("[1=one,2=two,3=three]")
  {
    var m := MapOfPairs([(k1, Str("one")), (k2, Str("two")), (k3, Str("three"))]);
    assert m == MapOf([Entry(k1, Str("one")), Entry(k2, Str("two")), Entry(k3, Str("three"))]);
    OneTwoThreeEntries(k1, k2, k3, site);
    TripleRendering(Entry(k1, Str("one")), Entry(k2, Str("two")), Entry(k3, Str("three")),
                    "1=one", "2=two", "3=three", site);
    assert "[" + "1=one" + "," == "[1=one,";
    assert "[1=one," + "2=two" + "," == "[1=one,2=two,";
    assert "[1=one,2=two," + "3=three" + "]" == "[1=one,2=two,3=three]";
  }

  // The expected keys of the generator's unit tests; `cls` is the test class's name.

  lemma KeyTestNoParams()
    ensures CompositeKey(Call("java.lang.String", "toLowerCase", [], [])) == Success("java.lang.String#toLowerCase()")
  {
    assert "java.lang.String" + "#" == "java.lang.String#";
    assert "java.lang.String#" + "toLowerCase" + "()" == "java.lang.String#toLowerCase()";
    NoArgsComposite("java.lang.String", "toLowerCase", []);
  }

  lemma KeyTestSimple()
    ensures CompositeKey(Call("java.lang.String", "endsWith", ["suffix"], [Str("blah!")]))
         == Success("java.lang.String#endsWith(blah!)")
  {
    assert "#" + "endsWith" + "(" == "#endsWith(";
    assert "#endsWith(" + "blah!" + ")" == "#endsWith(blah!)";
    assert "java.lang.String" + "#endsWith(blah!)" == "java.lang.String#endsWith(blah!)";
    CompositeWithTail(Call("java.lang.String", "endsWith", ["suffix"], [Str("blah!")]), ["blah!"], "#endsWith(blah!)");
  }

  lemma KeyTestSharedFutureKey(cls: string)
    ensures CompositeKey(Call(cls, "someMethod", ["key"], [Keyed("blah!")])) == Success(cls + "#someMethod(blah!)")
  {
    assert "#" + "someMethod" + "(" == "#someMethod(";
    assert "#someMethod(" + "blah!" + ")" == "#someMethod(blah!)";
    CompositeWithTail(Call(cls, "someMethod", ["key"], [Keyed("blah!")]), ["blah!"], "#someMethod(blah!)");
  }

  lemma KeyTestPrimitives(cls: string)
    ensures CompositeKey(Call(cls, "primitives", ["a", "b", "c", "d", "e"],
                              [Int(1), Int(2), Int(3), Bool(true), Bool(false)]))
         == Success(cls + "#primitives(1,2,3,true,false)")
  {
    assert "1" + "," + "2" == "1,2";
    assert "1,2" + "," + "3" == "1,2,3";
    assert "1,2,3" + "," + "true" == "1,2,3,true";
    assert "1,2,3,true" + "," + "false" == "1,2,3,true,false";
    assert "#" + "primitives" + "(" == "#primitives(";
    assert "#primitives(" + "1,2,3,true,false" + ")" == "#primitives(1,2,3,true,false)";
    var parts := ["1", "2", "3", "true", "false"];
    Join5("1", "2", "3", "true", "false");
    var c := Call(cls, "primitives", ["a", "b", "c", "d", "e"], [Int(1), Int(2), Int(3), Bool(true), Bool(false)]);
    assert forall i :: 0 <= i < 5 ==> Render(c.args[i], SiteOf(c, i)) == Success(parts[i]) by {
      SmallDecimals();
    }
    CompositeWithTail(c, parts, "#primitives(1,2,3,true,false)");
  }

  lemma KeyTestCollection(cls: string)
    ensures CompositeKey(Call(cls, "collection", ["list"], [Collection([Str("one"), Str("two"), Str("three")])]))
         == Success(cls + "#collection([one,two,three])")
  {
    assert "#" + "collection" + "(" == "#collection(";
    assert "#collection(" + "[one,two,three]" + ")" == "#collection([one,two,three])";
    var c := Call(cls, "collection", ["list"], [Collection([Str("one"), Str("two"), Str("three")])]);
    OneTwoThreeList(Str("one"), Str("two"), Str("three"), SiteOf(c, 0));
    CompositeWithTail(c, ["[one,two,three]"], "#collection([one,two,three])");
  }

  lemma KeyTestKeyCollection(cls: string)
    ensures CompositeKey(Call(cls, "keyCollection", ["list"], [Collection([Keyed("one"), Keyed("two"), Keyed("three")])]))
         == Success(cls + "#keyCollection([one,two,three])")
  {
    assert "#" + "keyCollection" + "(" == "#keyCollection(";
    assert "#keyCollection(" + "[one,two,three]" + ")" == "#keyCollection([one,two,three])";
    var c := Call(cls, "keyCollection", ["list"], [Collection([Keyed("one"), Keyed("two"), Keyed("three")])]);
    OneTwoThreeList(Keyed("one"), Keyed("two"), Keyed("three"), SiteOf(c, 0));
    CompositeWithTail(c, ["[one,two,three]"], "#keyCollection([one,two,three])");
  }

  lemma KeyTestMap(cls: string)
    ensures CompositeKey(Call(cls, "map", ["map"], [MapOfPairs([(Int(1), Str("one")), (Int(2), Str("two")), (Int(3), Str("three"))])]))
         == Success(cls + "#map([1=one,2=two,3=three])")
  {
    assert "#" + "map" + "(" == "#map(";
    assert "#map(" + "[1=one,2=two,3=three]" + ")" == "#map([1=one,2=two,3=three])";
    var c := Call(cls, "map", ["map"], [MapOfPairs([(Int(1), Str("one")), (Int(2), Str("two")), (Int(3), Str("three"))])]);
    assert Render(Int(1), SiteOf(c, 0)) == Success("1") && Render(Int(2), SiteOf(c, 0)) == Success("2")
        && Render(Int(3), SiteOf(c, 0)) == Success("3") by {
      SmallDecimals();
    }
    OneTwoThreeMap(Int(1), Int(2), Int(3), SiteOf(c, 0));
    CompositeWithTail(c, ["[1=one,2=two,3=three]"], "#map([1=one,2=two,3=three])");
  }

  lemma KeyTestKeyMap(cls: string)
    ensures CompositeKey(Call(cls, "keyMap", ["map"], [MapOfPairs([(Keyed("1"), Str("one")), (Keyed("2"), Str("two")), (Keyed("3"), Str("three"))])]))
         == Success(cls + "#keyMap([1=one,2=two,3=three])")
  {
    assert "#" + "keyMap" + "(" == "#keyMap(";
    assert "#keyMap(" + "[1=one,2=two,3=three]" + ")" == "#keyMap([1=one,2=two,3=three])";
    var c := Call(cls, "keyMap", ["map"], [MapOfPairs([(Keyed("1"), Str("one")), (Keyed("2"), Str("two")), (Keyed("3"), Str("three"))])]);
    OneTwoThreeMap(Keyed("1"), Keyed("2"), Keyed("3"), SiteOf(c, 0));
    CompositeWithTail(c, ["[1=one,2=two,3=three]"], "#keyMap([1=one,2=two,3=three])");
  }

  /** Element order is part of the rendering. */
  lemma CollectionOrderMatters(site: Site)
    ensures Render(Collection([Str("a"), Str("b")]), site) == Success("[a,b]")
    ensures Render(Collection([Str("b"), Str("a")]), site) == Success("[b,a]")
  {
    PairRendering(Str("a"), Str("b"), "a", "b", site);
    PairRendering(Str("b"), Str("a"), "b", "a", site);
    assert "[" + "a" + "," + "b" + "]" == "[a,b]";
    assert "[" + "b" + "," + "a" + "]" == "[b,a]";
  }

  /** A two-element collection renders as `[x,y]`. */
  lemma PairRendering(x: Arg, y: Arg, xs: string, ys: string, site: Site)
    requires Render(x, site) == Success(xs) && Render(y, site) == Success(ys)
    ensures Render(Collection([x, y]), site) == Success("[" + xs + "," + ys + "]")
  {
    RenderAllSnoc([], x, site);
    assert [] + [x] == [x] && [] + [xs] == [xs];
    RenderAllSnoc([x], y, site);
    assert [x] + [y] == [x, y] && [xs] + [ys] == [xs, ys];
    assert [xs, ys][..1] == [xs];
    assert Join([xs, ys]) == xs + "," + ys;
    assert RenderList([x, y], site) == Success("[" + (xs + "," + ys) + "]");
    assert "[" + (xs + "," + ys) + "]" == "[" + xs + "," + ys + "]";
  }

  /** Distinct arguments can share a rendering: a string and a number, a string holding a comma and two strings. */
  lemma RenderingNotInjective(site: Site)
    ensures Render(Str("1"), site) == Render(Int(1), site)
    ensures Render(Collection([Str("a,b")]), site) == Render(Collection([Str("a"), Str("b")]), site)
  {
    PairRendering(Str("a"), Str("b"), "a", "b", site);
    RenderAllSnoc([], Str("a,b"), site);
    assert [] + [Str("a,b")] == [Str("a,b")] && [] + ["a,b"] == ["a,b"];
    assert "[" + "a" + "," + "b" + "]" == "[" + Join(["a,b"]) + "]";
    assert DigitChar(1) == '1';
  }

  // ---------------------------------------------------------------------------
  // The generator as the original runs it: a StringBuilder filled by loops
  // ---------------------------------------------------------------------------

  /** What the builder holds after some parts: their join, and a comma when more follow. */
  ghost function Partial(parts: seq<string>, more: bool): string {
    if more && |parts| > 0 then Join(parts) + "," else Join(parts)
  }

  lemma PartialStep(prefix: string, parts: seq<string>, p: string)
    ensures prefix + Partial(parts, true) + p == prefix + Partial(parts + [p], false)
    ensures prefix + Partial(parts, true) + p + "," == prefix + Partial(parts + [p], true)
  {
    if |parts| > 0 {
      JoinSnoc(parts, p);
    } else {
      assert [] + [p] == [p];
    }
  }

  /** getParamKey: dispatch on the kind of the argument. */
  method GetParamKey(a: Arg, site: Site) returns (r: Result<string, KeyError>)
    ensures r == Render(a, site)
    decreases a, 1
  {
    match a
    case Keyed(k) => r := Success(k);
    case Str(s) => r := Success(s);
    case Int(n) => r := Success(Decimal(n));
    case Bool(b) => r := Success(if b then "true" else "false");
    case Char(c) => r := Success([c]);
    case Floating(t) => r := Success(t);
    case Collection(es) => r := GetCollectionParam(es, site);
    case MapOf(es) => r := GetCollectionParam(es, site);
    case Entry(k, v) => r := GetMapEntryParam(k, v, site);
    case Null => r := Failure(NullArgument);
    case Other(cn) => r := Failure(UnsupportedType(cn, site));
  }

  /** getMapEntryParam: `key=value`, key rendered first. */
  method GetMapEntryParam(k: Arg, v: Arg, site: Site) returns (r: Result<string, KeyError>)
    ensures r == Render(Entry(k, v), site)
    decreases Entry(k, v), 0
  {
    var ks := GetParamKey(k, site);
    if ks.Failure? {
      return Failure(ks.error);
    }
    var vs := GetParamKey(v, site);
    if vs.Failure? {
      return Failure(vs.error);
    }
    r := Success(ks.value + "=" + vs.value);
  }

  /** getCollectionParam: `[`, each element followed by a comma when another follows, `]`. */
  method GetCollectionParam(es: seq<Arg>, site: Site) returns (r: Result<string, KeyError>)
    ensures r == RenderList(es, site)
    decreases es, 2
  {
    var key := "[";
    ghost var parts: seq<string> := [];
    var i := 0;
    while i < |es|
      invariant 0 <= i <= |es|
      invariant RenderAll(es[..i], site) == Success(parts)
      invariant key == "[" + Partial(parts, i < |es|)
    {
      var p := GetParamKey(es[i], site);
      RenderAllStep(es, i, site, parts);
      if p.Failure? {
        RenderAllPrefixFailure(es, i + 1, site);
        return Failure(p.error);
      }
      PartialStep("[", parts, p.value);
      parts := parts + [p.value];
      key := key + p.value;
      if i + 1 < |es| {
        key := key + ",";
      }
      i := i + 1;
    }
    assert es[..i] == es;
    key := key + "]";
    r := Success(key);
  }

  /** generate: `Cls#method(`, the arguments separated by commas, `)`, then the hash. */
  method Generate(hash: string -> string, call: Call) returns (r: Result<string, KeyError>)
    ensures r == Key(hash, call)
  {
    var key := call.targetClass + "#" + call.methodName + "(";
    ghost var prefix := key;
    ghost var parts: seq<string> := [];
    var args := call.args;
    var i := 0;
    while i < |args|
      invariant 0 <= i <= |args|
      invariant RenderArgs(args[..i], call) == Success(parts)
      invariant key == prefix + Partial(parts, i < |args|)
    {
      RenderArgsStep(args, i, call, parts);
      if i >= |call.paramNames| {
        RenderArgsPrefixFailure(args, i + 1, call);
        return Failure(MissingParameter(i, |call.paramNames|));
      }
      var p := GetParamKey(args[i], SiteOf(call, i));
      if p.Failure? {
        RenderArgsPrefixFailure(args, i + 1, call);
        return Failure(p.error);
      }
      PartialStep(prefix, parts, p.value);
      parts := parts + [p.value];
      key := key + p.value;
      if i < |args| - 1 {
        key := key + ",";
      }
      i := i + 1;
    }
    assert args[..i] == args;
    key := key + ")";
    r := Success(hash(key));
  }
}
