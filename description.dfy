/**
 * `stringifyNewDescription`: composes a product's new HTML description from
 * three metafields (a rich-text description, the "how to take" text and a
 * list of ingredient references), logging a message for each section that
 * is missing instead of failing.
 *
 * The remote metaobject query is the parameter `lookup`: it maps the digits
 * of an ingredient reference to the metaobject's display name, or to None
 * when the platform returns no metaobject.
 */
module Description {
  import opened Wrappers
  import opened GlobalIds

  /** What `join` puts between fragments: one line of whitespace. */
  const Separator: string := "<br /><br />"

  const KeyIngredientsHeading: string := "<b>Key Ingredients</b>"

  function HowToTakeHeading(title: string): string
  {
    "<b>How to Take " + title + "</b>"
  }

  function BlankDescriptionMessage(title: string): string
  {
    "Product description for " + title + " is blank!"
  }

  function BlankHowToTakeMessage(title: string): string
  {
    "How to Take section for " + title + " is blank!"
  }

  function BlankIngredientsMessage(title: string): string
  {
    "Key ingredients section for " + title + " is blank!"
  }

  /** A node of a rich-text metafield value: an optional text value and children. */
  datatype RichText = RichText(value: Option<string>, children: seq<RichText>)

  /** The JSON value of the ingredients metafield: a list of references, or anything else. */
  datatype IngredientsValue = ReferenceList(references: seq<string>) | NotAList

  /**
   * The product record the description query returns. A metafield the
   * product lacks is None (GraphQL null).
   */
  datatype Product = Product(
    title: string,
    productDesc: Option<RichText>,
    howToTake: Option<string>,
    keyIngredients: Option<IngredientsValue>)

  /** The exceptions composition can raise. */
  datatype Fault =
    | NoProduct                                 // the record is null: reading its title throws
    | ShallowRichText                           // `children[0].children[0]` does not exist
    | ReferenceWithoutDigits(reference: string) // `shopifyIdNumberOnly` throws on the reference
    | MetaobjectNotFound(id: string)            // the query returned null: reading displayName throws

  datatype Outcome = Composed(html: string) | Thrown(fault: Fault)

  /**
   * One run of the composer: its outcome, the log messages it issued in
   * order, and the digit strings it passed to the lookup in order.
   */
  datatype Run = Run(outcome: Outcome, log: seq<string>, queried: seq<string>)

  /** JavaScript truthiness of an optional string: present and non-empty. */
  predicate Truthy(v: Option<string>)
  {
    v.Some? && v.value != ""
  }

  /** `jsonValue.children[0].children[0]` exists. */
  predicate DeepEnough(root: RichText)
  {
    |root.children| > 0 && |root.children[0].children| > 0
  }

  /** The value the description test reads; meaningful when the tree is deep enough. */
  function DescriptionValue(root: RichText): Option<string>
  {
    if DeepEnough(root) then root.children[0].children[0].value else None
  }

  /** Array.prototype.join. */
  function Join(parts: seq<string>, sep: string): string
    decreases |parts|
  {
    if |parts| == 0 then ""
    else if |parts| == 1 then parts[0]
    else parts[0] + sep + Join(parts[1..], sep)
  }

  // ---------------------------------------------------------------------
  // The specification of one run, section by section.

  /** What one section contributes: fragments, a log message, or an exception. */
  datatype Section = Present(fragments: seq<string>) | Blank(message: string) | Fails(fault: Fault)

  function DescriptionSection(p: Product): Section
  {
    match p.productDesc
    case None => Blank(BlankDescriptionMessage(p.title))
    case Some(root) =>
      if !DeepEnough(root) then Fails(ShallowRichText)
      else if Truthy(DescriptionValue(root)) then Present([DescriptionValue(root).value])
      else Blank(BlankDescriptionMessage(p.title))
  }

  function HowToTakeSection(p: Product): Section
  {
    if Truthy(p.howToTake) then Present([HowToTakeHeading(p.title), p.howToTake.value])
    else Blank(BlankHowToTakeMessage(p.title))
  }

  /** Display names resolved so far, digits queried so far, and the exception that stopped it. */
  datatype Resolution = Resolution(names: seq<string>, queried: seq<string>, fault: Option<Fault>)

  /** Resolves the references in order, stopping at the first exception. */
  function ResolveNames(refs: seq<string>, lookup: string -> Option<string>): Resolution
    decreases |refs|
  {
    if refs == [] then Resolution([], [], None)
    else match IdNumberOnly(refs[0])
      case Failure(_) => Resolution([], [], Some(ReferenceWithoutDigits(refs[0])))
      case Success(d) =>
        match lookup(d)
        case None => Resolution([], [d], Some(MetaobjectNotFound(d)))
        case Some(name) =>
          var rest := ResolveNames(refs[1..], lookup);
          Resolution([name] + rest.names, [d] + rest.queried, rest.fault)
  }

  function IngredientsSection(p: Product, lookup: string -> Option<string>): Section
  {
    match p.keyIngredients
    case Some(ReferenceList(refs)) =>
      var r := ResolveNames(refs, lookup);
      if r.fault.Some? then Fails(r.fault.value) else Present([KeyIngredientsHeading] + r.names)
    case _ => Blank(BlankIngredientsMessage(p.title))
  }

  function IngredientsQueried(p: Product, lookup: string -> Option<string>): seq<string>
  {
    match p.keyIngredients
    case Some(ReferenceList(refs)) => ResolveNames(refs, lookup).queried
    case _ => []
  }

  function Fragments(s: Section): seq<string>
  {
    if s.Present? then s.fragments else []
  }

  function Messages(s: Section): seq<string>
  {
    if s.Blank? then [s.message] else []
  }

  /** The whole run, sections in source order. */
  function Stringify(product: Option<Product>, lookup: string -> Option<string>): Run
  {
    if product.None? then Run(Thrown(NoProduct), [], [])
    else if DescriptionThrows(product.value) then Run(Thrown(ShallowRichText), [], [])
    else
      var p := product.value;
      var ingr := IngredientsSection(p, lookup);
      Run(if ingr.Fails? then Thrown(ingr.fault) else Composed(Join(AllFragments(p, lookup), Separator)),
          Messages(DescriptionSection(p)) + Messages(HowToTakeSection(p)) + Messages(ingr),
          IngredientsQueried(p, lookup))
  }

  /** The fragments pushed, in order, when no section throws. */
  function AllFragments(p: Product, lookup: string -> Option<string>): seq<string>
  {
    Fragments(DescriptionSection(p)) + Fragments(HowToTakeSection(p)) + Fragments(IngredientsSection(p, lookup))
  }

  // ---------------------------------------------------------------------
  // Properties of the specification.

  /** The description section is pushed: the metafield exists and its text is truthy. */
  predicate DescriptionPresent(p: Product)
  {
    p.productDesc.Some? && Truthy(DescriptionValue(p.productDesc.value))
  }

  /** Reading the description's text throws. */
  predicate DescriptionThrows(p: Product)
  {
    p.productDesc.Some? && !DeepEnough(p.productDesc.value)
  }

  /** The ingredients metafield exists and its JSON value is an array. */
  predicate HasReferenceList(p: Product)
  {
    p.keyIngredients.Some? && p.keyIngredients.value.ReferenceList?
  }

  /** A reference has trailing digits and the lookup finds its metaobject. */
  predicate Resolves(reference: string, lookup: string -> Option<string>)
  {
    IdNumberOnly(reference).Success? && lookup(IdNumberOnly(reference).value).Some?
  }

  function DisplayName(reference: string, lookup: string -> Option<string>): string
    requires Resolves(reference, lookup)
  {
    lookup(IdNumberOnly(reference).value).value
  }

  /**
   * Resolution goes through the references in order: the names are those of
   * a prefix of references that resolve, one lookup per reference, in order.
   */
  lemma {:induction false} ResolvedPrefix(refs: seq<string>, lookup: string -> Option<string>)
    ensures |ResolveNames(refs, lookup).names| <= |ResolveNames(refs, lookup).queried| <= |refs|
    ensures forall i :: 0 <= i < |ResolveNames(refs, lookup).names| ==>
      && Resolves(refs[i], lookup)
      && ResolveNames(refs, lookup).names[i] == DisplayName(refs[i], lookup)
      && ResolveNames(refs, lookup).queried[i] == IdNumberOnly(refs[i]).value
    decreases |refs|
  {
    if refs != [] && Resolves(refs[0], lookup) {
      var r, rest := ResolveNames(refs, lookup), ResolveNames(refs[1..], lookup);
      ResolvedPrefix(refs[1..], lookup);
      assert r.names == [DisplayName(refs[0], lookup)] + rest.names;
      assert r.queried == [IdNumberOnly(refs[0]).value] + rest.queried;
      forall i | 1 <= i < |r.names|
        ensures Resolves(refs[i], lookup) && r.names[i] == DisplayName(refs[i], lookup)
        ensures r.queried[i] == IdNumberOnly(refs[i]).value
      {
        assert refs[i] == refs[1..][i - 1];
      }
    }
  }

  /**
   * Resolution stops at the first reference that does not resolve, after
   * querying it only when it has digits; it covers every reference otherwise.
   */
  lemma {:induction false} ResolutionStops(refs: seq<string>, lookup: string -> Option<string>)
    ensures ResolveNames(refs, lookup).fault.None? ==>
      |ResolveNames(refs, lookup).names| == |ResolveNames(refs, lookup).queried| == |refs|
    ensures ResolveNames(refs, lookup).fault.Some? ==>
      var r := ResolveNames(refs, lookup);
      var k := |r.names|;
      && k < |refs| && !Resolves(refs[k], lookup)
      && (IdNumberOnly(refs[k]).Failure? ==>
            |r.queried| == k && r.fault.value == ReferenceWithoutDigits(refs[k]))
      && (IdNumberOnly(refs[k]).Success? ==>
            |r.queried| == k + 1 && r.queried[k] == IdNumberOnly(refs[k]).value
            && r.fault.value == MetaobjectNotFound(r.queried[k]))
    decreases |refs|
  {
    if refs != [] && Resolves(refs[0], lookup) {
      var r, rest := ResolveNames(refs, lookup), ResolveNames(refs[1..], lookup);
      ResolutionStops(refs[1..], lookup);
      assert r.names == [DisplayName(refs[0], lookup)] + rest.names;
      assert r.queried == [IdNumberOnly(refs[0]).value] + rest.queried;
      if r.fault.Some? {
        assert refs[|r.names|] == refs[1..][|rest.names|];
      }
    }
  }

  /** Resolution succeeds exactly when every reference resolves. */
  lemma ResolvesAllIff(refs: seq<string>, lookup: string -> Option<string>)
    ensures ResolveNames(refs, lookup).fault.None? <==> forall i :: 0 <= i < |refs| ==> Resolves(refs[i], lookup)
  {
    ResolvedPrefix(refs, lookup);
    ResolutionStops(refs, lookup);
  }

  /**
   * Composition succeeds exactly when there is a product, its description
   * tree is deep enough (when it has one), and every ingredient reference
   * has digits and a metaobject.
   */
  lemma ComposedIff(product: Option<Product>, lookup: string -> Option<string>)
    ensures Stringify(product, lookup).outcome.Composed? <==>
      && product.Some?
      && !DescriptionThrows(product.value)
      && (HasReferenceList(product.value) ==>
            forall i :: 0 <= i < |product.value.keyIngredients.value.references| ==>
              Resolves(product.value.keyIngredients.value.references[i], lookup))
  {
    if product.Some? && HasReferenceList(product.value) {
      ResolvesAllIff(product.value.keyIngredients.value.references, lookup);
    }
  }

  /**
   * The fragments of a composed description, in order: the description
   * text when truthy; the how-to-take heading immediately followed by its
   * text when truthy; and, when the ingredients value is an array, the
   * ingredients heading followed by one display name per reference.
   */
  lemma ComposedLayout(p: Product, lookup: string -> Option<string>)
    requires !DescriptionThrows(p)
    requires HasReferenceList(p) ==>
      forall i :: 0 <= i < |p.keyIngredients.value.references| ==> Resolves(p.keyIngredients.value.references[i], lookup)
    ensures AllFragments(p, lookup) ==
      (if DescriptionPresent(p) then [DescriptionValue(p.productDesc.value).value] else [])
      + (if Truthy(p.howToTake) then [HowToTakeHeading(p.title), p.howToTake.value] else [])
      + (if HasReferenceList(p)
         then [KeyIngredientsHeading] + ResolveNames(p.keyIngredients.value.references, lookup).names
         else [])
    ensures HasReferenceList(p) ==>
      var refs := p.keyIngredients.value.references;
      var names := ResolveNames(refs, lookup).names;
      |names| == |refs| && forall i :: 0 <= i < |refs| ==> names[i] == DisplayName(refs[i], lookup)
  {
    if HasReferenceList(p) {
      var refs := p.keyIngredients.value.references;
      ResolvesAllIff(refs, lookup);
      ResolvedPrefix(refs, lookup);
      ResolutionStops(refs, lookup);
    }
  }

  /**
   * A missing section never aborts composition: once the description has
   * been read without an exception, each missing section issues exactly
   * one message naming the product, in section order, and any exception
   * comes from an ingredient reference.
   */
  lemma MissingSectionsLogged(p: Product, lookup: string -> Option<string>)
    requires !DescriptionThrows(p)
    ensures Stringify(Some(p), lookup).log ==
      (if DescriptionPresent(p) then [] else [BlankDescriptionMessage(p.title)])
      + (if Truthy(p.howToTake) then [] else [BlankHowToTakeMessage(p.title)])
      + (if HasReferenceList(p) then [] else [BlankIngredientsMessage(p.title)])
    ensures Stringify(Some(p), lookup).outcome.Thrown? ==>
      HasReferenceList(p)
      && (Stringify(Some(p), lookup).outcome.fault.ReferenceWithoutDigits?
          || Stringify(Some(p), lookup).outcome.fault.MetaobjectNotFound?)
  {
    if HasReferenceList(p) {
      ResolutionStops(p.keyIngredients.value.references, lookup);
    }
  }

  /** When the record is null or the description tree is too shallow, nothing is logged or queried. */
  lemma EarlyThrowIsSilent(product: Option<Product>, lookup: string -> Option<string>)
    requires product.None? || DescriptionThrows(product.value)
    ensures Stringify(product, lookup).log == [] && Stringify(product, lookup).queried == []
    ensures Stringify(product, lookup).outcome.Thrown?
  {
  }

  /**
   * The lookup is called once per reference, in list order, on that
   * reference's trailing digits; without an ingredient list it is not called.
   */
  lemma LookupsInOrder(p: Product, lookup: string -> Option<string>)
    requires Stringify(Some(p), lookup).outcome.Composed?
    ensures !HasReferenceList(p) ==> Stringify(Some(p), lookup).queried == []
    ensures HasReferenceList(p) ==>
      var refs := p.keyIngredients.value.references;
      var q := Stringify(Some(p), lookup).queried;
      |q| == |refs| && forall i :: 0 <= i < |refs| ==> IdNumberOnly(refs[i]) == Success(q[i])
  {
    if HasReferenceList(p) {
      var refs := p.keyIngredients.value.references;
      assert ResolveNames(refs, lookup).fault.None?;
      ResolvedPrefix(refs, lookup);
      ResolutionStops(refs, lookup);
    }
  }

  /**
   * References built as `gid://shopify/Metaobject/<digits>` are queried
   * with exactly those digits, in order.
   */
  lemma ReferenceIdsQueried(p: Product, lookup: string -> Option<string>, ids: seq<string>)
    requires p.keyIngredients == Some(ReferenceList(seq(|ids|, i requires 0 <= i < |ids| => MetaobjectGid(ids[i]))))
    requires forall i :: 0 <= i < |ids| ==> ids[i] != "" && AllDigits(ids[i]) && lookup(ids[i]).Some?
    requires !DescriptionThrows(p)
    ensures Stringify(Some(p), lookup).outcome.Composed?
    ensures Stringify(Some(p), lookup).queried == ids
  {
    var refs := p.keyIngredients.value.references;
    forall i | 0 <= i < |ids|
      ensures IdNumberOnly(refs[i]) == Success(ids[i])
    {
      MetaobjectIdRoundTrip(ids[i]);
    }
    ComposedIff(Some(p), lookup);
    LookupsInOrder(p, lookup);
  }

  /** Join of a non-empty list starts with its first element. */
  lemma JoinStartsWithFirst(parts: seq<string>, sep: string)
    requires parts != []
    ensures |parts[0]| <= |Join(parts, sep)| && Join(parts, sep)[..|parts[0]|] == parts[0]
  {
  }

  /** Joining two non-empty lists puts exactly one separator between them. */
  lemma {:induction false} JoinAppend(a: seq<string>, b: seq<string>, sep: string)
    requires a != [] && b != []
    ensures Join(a + b, sep) == Join(a, sep) + sep + Join(b, sep)
    decreases |a|
  {
    if |a| == 1 {
      assert (a + b)[1..] == b;
    } else {
      assert (a + b)[1..] == a[1..] + b;
      JoinAppend(a[1..], b, sep);
    }
  }

  /**
   * The composed description is empty exactly when no section was pushed:
   * every pushed section starts with a non-empty fragment.
   */
  lemma EmptyIffNothingPushed(p: Product, lookup: string -> Option<string>)
    requires Stringify(Some(p), lookup).outcome.Composed?
    ensures Stringify(Some(p), lookup).outcome.html == "" <==>
      !DescriptionPresent(p) && !Truthy(p.howToTake) && !HasReferenceList(p)
  {
    var f := AllFragments(p, lookup);
    if f != [] {
      JoinStartsWithFirst(f, Separator);
      assert f[0] != "";
    }
  }

  /**
   * With all three sections present the description is the description
   * text, the how-to-take heading and text, and the ingredients heading
   * with the names, separated by exactly one separator each.
   */
  lemma FullDescription(p: Product, lookup: string -> Option<string>)
    requires Stringify(Some(p), lookup).outcome.Composed?
    requires DescriptionPresent(p) && Truthy(p.howToTake) && HasReferenceList(p)
    ensures Stringify(Some(p), lookup).outcome.html ==
      DescriptionValue(p.productDesc.value).value + Separator
      + HowToTakeHeading(p.title) + Separator + p.howToTake.value + Separator
      + Join([KeyIngredientsHeading] + ResolveNames(p.keyIngredients.value.references, lookup).names, Separator)
  {
    var d := [DescriptionValue(p.productDesc.value).value];
    var h := [HowToTakeHeading(p.title), p.howToTake.value];
    var g := [KeyIngredientsHeading] + ResolveNames(p.keyIngredients.value.references, lookup).names;
    assert AllFragments(p, lookup) == d + h + g;
    JoinAppend(d + h, g, Separator);
    JoinAppend(d, h, Separator);
  }

  // ---------------------------------------------------------------------
  // The composer, statement by statement.

  /**
   * The `for...of` loop over the ingredient references: extracts each
   * reference's digits, queries the metaobject and collects its display
   * name, stopping at the first exception.
   */
  method ResolveIngredients(refs: seq<string>, lookup: string -> Option<string>)
    returns (names: seq<string>, queried: seq<string>, fault: Option<Fault>)
    ensures Resolution(names, queried, fault) == ResolveNames(refs, lookup)
  {
    names, queried, fault := [], [], None;
    var i := 0;
    while i < |refs|
      invariant 0 <= i <= |refs|
      invariant ResolveNames(refs, lookup).names == names + ResolveNames(refs[i..], lookup).names
      invariant ResolveNames(refs, lookup).queried == queried + ResolveNames(refs[i..], lookup).queried
      invariant ResolveNames(refs, lookup).fault == ResolveNames(refs[i..], lookup).fault
    {
      ghost var rest, next := ResolveNames(refs[i..], lookup), ResolveNames(refs[i + 1..], lookup);
      assert refs[i..][0] == refs[i] && refs[i..][1..] == refs[i + 1..];
      var id := IdNumberOnly(refs[i]);
      if id.Failure? {
        assert rest == Resolution([], [], Some(ReferenceWithoutDigits(refs[i])));
        fault := Some(ReferenceWithoutDigits(refs[i]));
        return;
      }
      queried := queried + [id.value];
      var ingredientObject := lookup(id.value);
      if ingredientObject.None? {
        assert rest == Resolution([], [id.value], Some(MetaobjectNotFound(id.value)));
        fault := Some(MetaobjectNotFound(id.value));
        return;
      }
      assert rest == Resolution([ingredientObject.value] + next.names, [id.value] + next.queried, next.fault);
      names := names + [ingredientObject.value];
      i := i + 1;
    }
    assert refs[i..] == [];
  }

  /**
   * shopifyCalls.js lines 101-105: pushes the description text when it is truthy and logs
   * otherwise; reading the text throws when the tree is too shallow.
   */
  method PushDescription(p: Product, texts: seq<string>, log: seq<string>)
    returns (texts': seq<string>, log': seq<string>, fault: Option<Fault>)
    ensures fault.Some? <==> DescriptionThrows(p)
    ensures fault.Some? ==> fault.value == ShallowRichText && texts' == texts && log' == log
    ensures fault.None? ==>
      texts' == texts + Fragments(DescriptionSection(p)) && log' == log + Messages(DescriptionSection(p))
  {
    texts', log', fault := texts, log, None;
    if p.productDesc.Some? && !DeepEnough(p.productDesc.value) {
      fault := Some(ShallowRichText);
      return;
    }
    if p.productDesc.Some? && Truthy(DescriptionValue(p.productDesc.value)) {
      texts' := texts' + [DescriptionValue(p.productDesc.value).value];
    } else {
      log' := log' + [BlankDescriptionMessage(p.title)];
    }
  }

  /** shopifyCalls.js lines 107-112: pushes the heading and the text when the text is truthy, logs otherwise. */
  method PushHowToTake(p: Product, texts: seq<string>, log: seq<string>)
    returns (texts': seq<string>, log': seq<string>)
    ensures texts' == texts + Fragments(HowToTakeSection(p))
    ensures log' == log + Messages(HowToTakeSection(p))
  {
    texts', log' := texts, log;
    if Truthy(p.howToTake) {
      texts' := texts' + [HowToTakeHeading(p.title)];
      texts' := texts' + [p.howToTake.value];
    } else {
      log' := log' + [BlankHowToTakeMessage(p.title)];
    }
  }

  /**
   * shopifyCalls.js lines 123-132: for an array of references, pushes the heading and one
   * display name per reference; logs when the value is not an array.
   */
  method PushIngredients(p: Product, lookup: string -> Option<string>, texts: seq<string>, log: seq<string>)
    returns (texts': seq<string>, log': seq<string>, queried: seq<string>, fault: Option<Fault>)
    ensures queried == IngredientsQueried(p, lookup)
    ensures fault.Some? <==> IngredientsSection(p, lookup).Fails?
    ensures fault.Some? ==> fault.value == IngredientsSection(p, lookup).fault
    ensures log' == log + Messages(IngredientsSection(p, lookup))
    ensures fault.None? ==> texts' == texts + Fragments(IngredientsSection(p, lookup))
  {
    texts', log', queried, fault := texts, log, [], None;
    if p.keyIngredients.Some? && p.keyIngredients.value.ReferenceList? {
      texts' := texts' + [KeyIngredientsHeading];
      var names;
      names, queried, fault := ResolveIngredients(p.keyIngredients.value.references, lookup);
      texts' := texts' + names;
      assert texts' == texts + ([KeyIngredientsHeading] + names);
    } else {
      log' := log' + [BlankIngredientsMessage(p.title)];
    }
  }

  method StringifyNewDescription(product: Option<Product>, lookup: string -> Option<string>)
    returns (outcome: Outcome, log: seq<string>, queried: seq<string>)
    ensures Run(outcome, log, queried) == Stringify(product, lookup)
  {
    log, queried := [], [];
    if product.None? {
      outcome := Thrown(NoProduct);
      return;
    }
    var p := product.value;
    ghost var desc, howTo, ingr := DescriptionSection(p), HowToTakeSection(p), IngredientsSection(p, lookup);
    var metafieldsText: seq<string> := [];
    var fault;
    metafieldsText, log, fault := PushDescription(p, metafieldsText, log);
    if fault.Some? {
      outcome := Thrown(fault.value);
      return;
    }
    assert metafieldsText == Fragments(desc) && log == Messages(desc);
    metafieldsText, log := PushHowToTake(p, metafieldsText, log);
    metafieldsText, log, queried, fault := PushIngredients(p, lookup, metafieldsText, log);
    assert log == Messages(desc) + Messages(howTo) + Messages(ingr);
    if fault.Some? {
      outcome := Thrown(fault.value);
      return;
    }
    assert metafieldsText == AllFragments(p, lookup);
    // The fragments, joined with the section separator.
    outcome := Composed(Join(metafieldsText, Separator));
  }
}
