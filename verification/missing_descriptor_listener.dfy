/**
 * The missing-descriptor listener (sessions.factories.MissingDescriptorListener): when
 * a session finds no descriptor for a class, it hands the class name to the XDB helper
 * and, for the EIS or binary-XML mapping classes, lazily registers that subsystem's
 * descriptors in the root session.
 *
 * Sessions are modelled by what the listener does to them: each session keeps a trace
 * of the calls made on it. The XDB helper, the descriptor projects and
 * `addDescriptors` are foreign code and appear only as recorded effects. Loading the
 * interaction class and registering its indicator either succeed or throw; which one
 * happens is a parameter.
 */
module SessionFactories {
  import opened Wrappers
  import opened Exceptions

  // ---------------------------------------------------------------------------
  // Marker class names
  // ---------------------------------------------------------------------------

  /** Marker of the XDB mappings; declared by the listener but not used by it. */
  const XML_TYPE_CLASS: string := "org.eclipse.persistence.mappings.xdb.DirectToXMLTypeMapping"
  const EIS_DESCRIPTOR_CLASS: string := "org.eclipse.persistence.eis.EISDescriptor"
  const XML_INTERACTION_CLASS: string := "org.eclipse.persistence.eis.interactions.XMLInteraction"
  const EIS_LOGIN_CLASS: string := "org.eclipse.persistence.eis.EISLogin"
  const XML_BINARY_MAPPING_CLASS: string := "org.eclipse.persistence.oxm.mappings.XMLBinaryDataMapping"
  const XML_BINARY_COLLECTION_MAPPING_CLASS: string := "org.eclipse.persistence.oxm.mappings.XMLBinaryDataCollectionMapping"

  /** The class whose descriptor's inheritance policy receives the interaction indicator. */
  const CALL_CLASS: string := "org.eclipse.persistence.queries.Call"
  /** The indicator value, after the project's primary namespace path. */
  const XML_INTERACTION_INDICATOR: string := "xml-interaction"

  /** The EIS triad: descriptor, interaction and login. */
  predicate IsEISClass(name: string)
  {
    name == EIS_DESCRIPTOR_CLASS || name == XML_INTERACTION_CLASS || name == EIS_LOGIN_CLASS
  }

  /** The binary-XML mapping pair. */
  predicate IsBinaryDataMappingClass(name: string)
  {
    name == XML_BINARY_MAPPING_CLASS || name == XML_BINARY_COLLECTION_MAPPING_CLASS
  }

  /** No name triggers both branches. */
  lemma {:induction false} MarkerSetsDisjoint(name: string)
    ensures !(IsEISClass(name) && IsBinaryDataMappingClass(name))
  {
  }

  // ---------------------------------------------------------------------------
  // Projects, sessions and what is registered on them
  // ---------------------------------------------------------------------------

  /** Maps namespace prefixes to URIs. */
  class NamespaceResolverWithPrefixes {
    var prefixes: seq<(string, string)>

    constructor ()
      ensures prefixes == []
    {
      prefixes := [];
    }
  }

  /** A session's project, which may or may not offer a namespace context. */
  datatype Project =
    | NamespaceResolvableProject(primaryNamespaceXPath: string, namespaceResolver: NamespaceResolverWithPrefixes)
    | OtherProject

  /** The companion projects whose descriptors are added in bulk. */
  datatype DescriptorProject =
    | EISObjectPersistenceXMLProject(resolver: NamespaceResolverWithPrefixes)
    | OXMObjectPersistenceRuntimeXMLProject(resolver: NamespaceResolverWithPrefixes)

  /** One call made on a session: the XDB helper, an indicator registration or a bulk addition. */
  datatype Effect =
    | XDBHelperCalled(name: string, resolver: NamespaceResolverWithPrefixes)
    | ClassIndicatorAdded(descriptorClass: string, javaClass: string, indicator: string)
    | DescriptorsAdded(project: DescriptorProject)

  /**
   * A session. `root` is the root session it belongs to, or null when it is itself a
   * root (a database session); a root has no root of its own, so `RootSession` needs
   * no walk up a chain. `effects` is the trace of registrations made on it.
   */
  class Session {
    const root: Session?
    var project: Project
    var effects: seq<Effect>

    constructor (project: Project, root: Session?)
      requires root != null ==> root.root == null
      ensures this.project == project && this.root == root && effects == []
    {
      this.root := root;
      this.project := project;
      effects := [];
    }

    /** `getRootSession(null)`. */
    function RootSession(): Session
    {
      if root == null then this else root
    }

    /** `addDescriptors(project)`. */
    method AddDescriptors(p: DescriptorProject)
      modifies this
      ensures effects == old(effects) + [DescriptorsAdded(p)]
      ensures project == old(project)
    {
      effects := effects + [DescriptorsAdded(p)];
    }

    /**
     * `getDescriptor(Call.class).getInheritancePolicy().addClassIndicator(javaClass, indicator)`,
     * which throws `failure` when it is present.
     */
    method AddCallClassIndicator(javaClass: string, indicator: string, failure: Option<Cause>)
      returns (err: Option<Cause>)
      modifies this
      ensures err == failure
      ensures effects == if failure.None? then old(effects) + [ClassIndicatorAdded(CALL_CLASS, javaClass, indicator)]
                         else old(effects)
      ensures project == old(project)
    {
      err := failure;
      if failure.None? {
        effects := effects + [ClassIndicatorAdded(CALL_CLASS, javaClass, indicator)];
      }
    }
  }

  /** `DirectToXMLTypeMappingHelper.getInstance().addXDBDescriptors(name, session, resolver)`. */
  method AddXDBDescriptors(name: string, session: Session, resolver: NamespaceResolverWithPrefixes)
    modifies session
    ensures session.effects == old(session.effects) + [XDBHelperCalled(name, resolver)]
    ensures session.project == old(session.project)
  {
    session.effects := session.effects + [XDBHelperCalled(name, resolver)];
  }

  /** The event raised for a missing descriptor: the class (by name) and the session that missed it. */
  datatype SessionEvent = SessionEvent(result: string, session: Session)

  // ---------------------------------------------------------------------------
  // The protocol
  // ---------------------------------------------------------------------------

  /** What a call does: how it completes and the registrations it makes, in order. */
  datatype Reaction = Reaction(outcome: Outcome<ValidationException>, effects: seq<Effect>)

  /** The primary namespace path a project supplies, or "" when it supplies none. */
  function PrimaryXPath(project: Project): string
  {
    if project.NamespaceResolvableProject? then project.primaryNamespaceXPath else ""
  }

  predicate HasIndicator(effects: seq<Effect>)
  {
    exists i :: 0 <= i < |effects| && effects[i].ClassIndicatorAdded?
  }

  predicate AddsEISProject(effects: seq<Effect>)
  {
    exists i :: 0 <= i < |effects| && effects[i].DescriptorsAdded? && effects[i].project.EISObjectPersistenceXMLProject?
  }

  predicate AddsOXMProject(effects: seq<Effect>)
  {
    exists i :: 0 <= i < |effects| && effects[i].DescriptorsAdded? && effects[i].project.OXMObjectPersistenceRuntimeXMLProject?
  }

  /** At most one bulk `addDescriptors`. */
  predicate AtMostOneBulkAdd(effects: seq<Effect>)
  {
    forall i, j :: 0 <= i < j < |effects| && effects[i].DescriptorsAdded? ==> !effects[j].DescriptorsAdded?
  }

  /** Every indicator registered maps `xpath + "xml-interaction"` to the interaction class on `Call`'s descriptor. */
  predicate IndicatorsRegisterInteraction(effects: seq<Effect>, xpath: string)
  {
    forall i :: 0 <= i < |effects| && effects[i].ClassIndicatorAdded? ==>
      effects[i] == ClassIndicatorAdded(CALL_CLASS, XML_INTERACTION_CLASS, xpath + XML_INTERACTION_INDICATOR)
  }

  /** The EIS project is only added after an indicator was registered. */
  predicate EISProjectAfterIndicator(effects: seq<Effect>)
  {
    forall j :: 0 <= j < |effects| && effects[j].DescriptorsAdded? && effects[j].project.EISObjectPersistenceXMLProject? ==>
      exists i :: 0 <= i < j && effects[i].ClassIndicatorAdded?
  }

  /** Every registration that takes a namespace resolver is given `resolver`. */
  predicate UsesResolver(effects: seq<Effect>, resolver: NamespaceResolverWithPrefixes)
  {
    forall i :: 0 <= i < |effects| ==>
      (effects[i].XDBHelperCalled? ==> effects[i].resolver == resolver)
      && (effects[i].DescriptorsAdded? ==> effects[i].project.resolver == resolver)
  }

  /**
   * The reaction to a missing descriptor for the class `name`, given the namespace path
   * and resolver chosen from the project, whether loading the interaction class throws
   * (`loadFailure`) and whether registering its indicator throws (`registrationFailure`).
   */
  function Respond(name: string, xpath: string, resolver: NamespaceResolverWithPrefixes,
                   loadFailure: Option<Cause>, registrationFailure: Option<Cause>): (rx: Reaction)
    ensures |rx.effects| > 0 && rx.effects[0] == XDBHelperCalled(name, resolver)
    ensures |rx.effects| == (if IsEISClass(name) && rx.outcome.Pass? then 3
                             else if IsBinaryDataMappingClass(name) then 2
                             else 1)
    ensures rx.outcome.Fail? <==> IsEISClass(name) && (loadFailure.Some? || registrationFailure.Some?)
    ensures rx.outcome.Fail? ==>
              rx.effects == [XDBHelperCalled(name, resolver)]
              && rx.outcome.error == FatalErrorOccurred(if loadFailure.Some? then loadFailure.value else registrationFailure.value)
    ensures HasIndicator(rx.effects) <==> IsEISClass(name) && rx.outcome.Pass?
    ensures AddsEISProject(rx.effects) <==> IsEISClass(name) && rx.outcome.Pass?
    ensures AddsOXMProject(rx.effects) <==> IsBinaryDataMappingClass(name)
    ensures AtMostOneBulkAdd(rx.effects)
    ensures IndicatorsRegisterInteraction(rx.effects, xpath)
    ensures EISProjectAfterIndicator(rx.effects)
    ensures UsesResolver(rx.effects, resolver)
    ensures !IsEISClass(name) && !IsBinaryDataMappingClass(name) ==>
              rx == Reaction(Pass, [XDBHelperCalled(name, resolver)])
  {
    var xdb := [XDBHelperCalled(name, resolver)];
    if IsEISClass(name) then
      if loadFailure.Some? then Reaction(Fail(FatalErrorOccurred(loadFailure.value)), xdb)
      else if registrationFailure.Some? then Reaction(Fail(FatalErrorOccurred(registrationFailure.value)), xdb)
      else
        var effects := xdb + [ClassIndicatorAdded(CALL_CLASS, XML_INTERACTION_CLASS, xpath + XML_INTERACTION_INDICATOR),
                              DescriptorsAdded(EISObjectPersistenceXMLProject(resolver))];
        assert effects[1].ClassIndicatorAdded?;
        assert effects[2].DescriptorsAdded?;
        Reaction(Pass, effects)
    else if IsBinaryDataMappingClass(name) then
      var effects := xdb + [DescriptorsAdded(OXMObjectPersistenceRuntimeXMLProject(resolver))];
      assert effects[1].DescriptorsAdded?;
      Reaction(Pass, effects)
    else
      Reaction(Pass, xdb)
  }

  /**
   * `missingDescriptor(event)`: chooses the namespace context from the root session's
   * project (falling back to "" and a fresh empty resolver), calls the XDB helper, and
   * for the EIS triad or the binary-XML pair registers that subsystem's descriptors.
   * Every effect lands on the root session of the event's session, and the effects it
   * appends are exactly those of `Respond`.
   */
  method MissingDescriptor(event: SessionEvent, loadFailure: Option<Cause>, registrationFailure: Option<Cause>)
    returns (r: Outcome<ValidationException>)
    modifies event.session.RootSession()
    ensures event.session.RootSession() != event.session ==> unchanged(event.session)
    ensures var session := event.session.RootSession();
            var k := |old(session.effects)|;
            && session.project == old(session.project)
            && k < |session.effects|
            && session.effects[..k] == old(session.effects)
            && session.effects[k].XDBHelperCalled?
            && var used := session.effects[k].resolver;
               && (session.project.NamespaceResolvableProject? ==> used == session.project.namespaceResolver)
               && (session.project.OtherProject? ==> fresh(used) && used.prefixes == [])
               && Reaction(r, session.effects[k..])
                  == Respond(event.result, PrimaryXPath(session.project), used, loadFailure, registrationFailure)
  {
    var name := event.result;
    var session := event.session.RootSession();
    ghost var k := |session.effects|;
    var project := session.project;
    var namespaceXPath := "";
    var resolver: NamespaceResolverWithPrefixes;
    if project.NamespaceResolvableProject? {
      namespaceXPath := project.primaryNamespaceXPath;
      resolver := project.namespaceResolver;
    } else {
      resolver := new NamespaceResolverWithPrefixes();
    }
    AddXDBDescriptors(name, session, resolver);
    r := Pass;
    if IsEISClass(name) {
      if loadFailure.Some? {
        r := Fail(FatalErrorOccurred(loadFailure.value));
        return;
      }
      var javaClass := XML_INTERACTION_CLASS;
      var err := session.AddCallClassIndicator(javaClass, namespaceXPath + XML_INTERACTION_INDICATOR, registrationFailure);
      if err.Some? {
        r := Fail(FatalErrorOccurred(err.value));
        return;
      }
      session.AddDescriptors(EISObjectPersistenceXMLProject(resolver));
    }
    if IsBinaryDataMappingClass(name) {
      session.AddDescriptors(OXMObjectPersistenceRuntimeXMLProject(resolver));
    }
  }
}
