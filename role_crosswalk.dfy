/**
 * The Role crosswalk of DSpace (RoleCrosswalk): it exports the groups and
 * people of a site, community or collection to the roles XML format and
 * restores them from it, by handing the work to the packager plugins
 * registered under the name "DSPACE-ROLES".
 *
 * The plugins, the XML parser and the XML serialiser are oracles: a
 * disseminator is a function from the object and the packaging parameters
 * to what it left in the temporary file, the parser a function from that
 * file to a document or a parse failure, and an ingester an object that
 * records the requests it is handed.
 */
module RoleCrosswalk {
  import opened Common

  /** Object type codes, numbered as the content model's constants number them. */
  const BITSTREAM := 0
  const BUNDLE := 1
  const ITEM := 2
  const COLLECTION := 3
  const COMMUNITY := 4
  const SITE := 5
  const GROUP := 6
  const EPERSON := 7

  /** Name of the packager plugin the crosswalk delegates to. */
  const ROLE_PACKAGER_PLUGIN := "DSPACE-ROLES"

  datatype Namespace = Namespace(prefix: string, uri: string)

  /** The namespace of the roles XML format. */
  const DSROLES_NS := Namespace("dsroles", "http://www.dspace.org/xmlns/dspace/dspace-roles")

  /** A repository object; only its type code matters to the crosswalk. */
  datatype DSpaceObject = DSpaceObject(typeCode: int, id: nat)

  /** An XML element with its element children. */
  datatype Element = Element(name: string, children: seq<Element>)

  /** Packaging parameters (a property list); the default instance is empty. */
  type PackageParameters = map<string, string>

  /** An exception a packager plugin may throw. */
  datatype PluginFault = PackageFault | WorkflowFault | CrosswalkFault | IOFault | SQLFault | AuthorizeFault

  /** What a CrosswalkInternalException reports. */
  datatype InternalCause = PluginMissing | Wrapped(fault: PluginFault)

  /** The exceptions the crosswalk lets escape. */
  datatype CrosswalkError =
    | CrosswalkInternal(cause: InternalCause)  // CrosswalkInternalException
    | ObjectNotSupported                       // CrosswalkObjectNotSupported
    | MetadataValidation                       // MetadataValidationException wrapping an XML parse error
    | Propagated(fault: PluginFault)           // a plugin's exception passed through unchanged
    | NullDereference                          // NullPointerException

  /** The temporary file after the disseminator ran. */
  datatype TempFile = Present(bytes: seq<byte>) | Missing

  /** What the disseminator plugin did: it left the file in some state, or it threw. */
  datatype DisseminationOutcome = Produced(file: TempFile) | Raised(fault: PluginFault)

  /** A PackageDisseminator plugin, as the function it computes. */
  datatype PackageDisseminator = PackageDisseminator(disseminate: (DSpaceObject, PackageParameters) -> DisseminationOutcome)

  /** What parsing the temporary file gives: a document (with or without a root), a parse error or a read error. */
  datatype ParseOutcome = Parsed(root: Option<Element>) | XmlError | ReadError

  /** What the ingester plugin is handed: the object, the XML (written to a temporary file), parameters and licence. */
  datatype IngestRequest = IngestRequest(dso: DSpaceObject, root: Element, params: PackageParameters, license: Option<string>)

  // ---------------------------------------------------------------------
  // Gating and dispatch decisions
  // ---------------------------------------------------------------------

  /** The object types that own groups: only these may be disseminated or ingested. */
  function CanDisseminate(dso: DSpaceObject): (can: bool)
    ensures can <==> dso.typeCode in {SITE, COMMUNITY, COLLECTION}
    ensures dso.typeCode in {BITSTREAM, BUNDLE, ITEM, GROUP, EPERSON} ==> !can
  {
    dso.typeCode == SITE || dso.typeCode == COMMUNITY || dso.typeCode == COLLECTION
  }

  /** The packaging parameters handed to a plugin: the configured ones, or a fresh default (empty) set. */
  function EffectiveParameters(configured: Option<PackageParameters>): (params: PackageParameters)
    ensures configured.Some? ==> params == configured.value
    ensures configured.None? ==> params == map[]
  {
    if configured.Some? then configured.value else map[]
  }

  /** Dissemination wraps a PackageException into CrosswalkInternalException and lets the rest through. */
  function WrapDisseminationFault(f: PluginFault): (e: CrosswalkError)
    ensures e.CrosswalkInternal? <==> f == PackageFault
    ensures e.CrosswalkInternal? ==> e.cause == Wrapped(f)
    ensures !e.CrosswalkInternal? ==> e == Propagated(f)
  {
    if f == PackageFault then CrosswalkInternal(Wrapped(f)) else Propagated(f)
  }

  /** Ingestion wraps a PackageException or WorkflowException into CrosswalkInternalException and lets the rest through. */
  function WrapIngestFault(f: PluginFault): (e: CrosswalkError)
    ensures e.CrosswalkInternal? <==> f == PackageFault || f == WorkflowFault
    ensures e.CrosswalkInternal? ==> e.cause == Wrapped(f)
    ensures !e.CrosswalkInternal? ==> e == Propagated(f)
  {
    match f
    case PackageFault => CrosswalkInternal(Wrapped(f))
    case WorkflowFault => CrosswalkInternal(Wrapped(f))
    case _ => Propagated(f)
  }

  /** What the role disseminator leaves behind for `dso`. */
  function RoleExport(params: PackageParameters, dso: DSpaceObject, disseminators: map<string, PackageDisseminator>): DisseminationOutcome
    requires ROLE_PACKAGER_PLUGIN in disseminators
  {
    disseminators[ROLE_PACKAGER_PLUGIN].disseminate(dso, params)
  }

  /** Whether the export ran and produced a non-empty (or vanished) file that the parser is then asked to read. */
  predicate ExportParsed(params: PackageParameters, dso: DSpaceObject, disseminators: map<string, PackageDisseminator>)
  {
    && ROLE_PACKAGER_PLUGIN in disseminators
    && RoleExport(params, dso, disseminators).Produced?
    && RoleExport(params, dso, disseminators).file != Present([])
  }

  /**
   * The result of disseminateElement: the plugin must exist; a package
   * failure is internal; a zero-length file means "no results" (null);
   * otherwise the file is parsed and its root (or null) returned, a parse
   * error being a validation failure.
   */
  function DisseminationResult(params: PackageParameters, dso: DSpaceObject,
                               disseminators: map<string, PackageDisseminator>,
                               parse: TempFile -> ParseOutcome): (r: Result<Option<Element>, CrosswalkError>)
    ensures r == Failure(CrosswalkInternal(PluginMissing)) <==> ROLE_PACKAGER_PLUGIN !in disseminators
    ensures r == Failure(CrosswalkInternal(Wrapped(PackageFault))) <==>
      ROLE_PACKAGER_PLUGIN in disseminators && RoleExport(params, dso, disseminators) == Raised(PackageFault)
    ensures r == Failure(MetadataValidation) <==>
      ExportParsed(params, dso, disseminators) && parse(RoleExport(params, dso, disseminators).file) == XmlError
    ensures r == Success(None) <==>
      && ROLE_PACKAGER_PLUGIN in disseminators
      && RoleExport(params, dso, disseminators).Produced?
      && (|| RoleExport(params, dso, disseminators).file == Present([])
          || parse(RoleExport(params, dso, disseminators).file) == Parsed(None))
    ensures r.Success? && r.value.Some? ==>
      ExportParsed(params, dso, disseminators) && parse(RoleExport(params, dso, disseminators).file) == Parsed(r.value)
    ensures ExportParsed(params, dso, disseminators) && parse(RoleExport(params, dso, disseminators).file).Parsed? ==>
      r == Success(parse(RoleExport(params, dso, disseminators).file).root)
    ensures ExportParsed(params, dso, disseminators) && parse(RoleExport(params, dso, disseminators).file) == ReadError ==>
      r == Failure(Propagated(IOFault))
    ensures ROLE_PACKAGER_PLUGIN in disseminators && RoleExport(params, dso, disseminators).Raised? ==>
      r == Failure(WrapDisseminationFault(RoleExport(params, dso, disseminators).fault))
  {
    if ROLE_PACKAGER_PLUGIN !in disseminators then Failure(CrosswalkInternal(PluginMissing))
    else
      match RoleExport(params, dso, disseminators)
      case Raised(f) => Failure(WrapDisseminationFault(f))
      case Produced(file) =>
        if file == Present([]) then Success(None)
        else
          match parse(file)
          case Parsed(root) => Success(root)
          case XmlError => Failure(MetadataValidation)
          case ReadError => Failure(Propagated(IOFault))
  }

  /** An export whose temporary file stays empty: dissemination succeeded but had no results. */
  lemma ZeroLengthExportYieldsNull(params: PackageParameters, dso: DSpaceObject, parse: TempFile -> ParseOutcome)
    ensures DisseminationResult(params, dso,
              map[ROLE_PACKAGER_PLUGIN := PackageDisseminator((o, p) => Produced(Present([])))], parse)
         == Success(None)
  {
  }

  /**
   * The result of ingest(root): the object type is checked first, then the
   * plugin is looked up, then the temporary file is opened and the XML
   * serialised into it (a null root cannot be serialised), and last the
   * plugin's own exception (if any) is wrapped.
   */
  function IngestOutcome(dso: DSpaceObject, pluginFound: bool, writeFails: bool, rootPresent: bool,
                         pluginFailure: Option<PluginFault>): (r: Result<(), CrosswalkError>)
    ensures r == Failure(ObjectNotSupported) <==> !CanDisseminate(dso)
    ensures r == Failure(CrosswalkInternal(PluginMissing)) <==> CanDisseminate(dso) && !pluginFound
    ensures r == Failure(NullDereference) <==> CanDisseminate(dso) && pluginFound && !writeFails && !rootPresent
    ensures r.Success? <==> CanDisseminate(dso) && pluginFound && !writeFails && rootPresent && pluginFailure.None?
    ensures CanDisseminate(dso) && pluginFound && writeFails ==> r == Failure(Propagated(IOFault))
    ensures CanDisseminate(dso) && pluginFound && !writeFails && rootPresent && pluginFailure.Some? ==>
      r == Failure(WrapIngestFault(pluginFailure.value))
  {
    if !CanDisseminate(dso) then Failure(ObjectNotSupported)
    else if !pluginFound then Failure(CrosswalkInternal(PluginMissing))
    else if writeFails then Failure(Propagated(IOFault))
    else if !rootPresent then Failure(NullDereference)
    else if pluginFailure.Some? then Failure(WrapIngestFault(pluginFailure.value))
    else Success(())
  }

  /** The plugin objects `ingest` may touch: the one registered as the role packager, if any. */
  function RolePlugin(ingesters: map<string, PackageIngester>): set<PackageIngester>
  {
    if ROLE_PACKAGER_PLUGIN in ingesters then {ingesters[ROLE_PACKAGER_PLUGIN]} else {}
  }

  // ---------------------------------------------------------------------
  // Plugins and the crosswalk
  // ---------------------------------------------------------------------

  /** A PackageIngester plugin: it records every request it is handed and answers with `failure`. */
  class PackageIngester {
    /** The requests handed to this plugin, oldest first. */
    var received: seq<IngestRequest>
    /** The exception this plugin throws when it ingests, if any. */
    const failure: Option<PluginFault>

    constructor (failure: Option<PluginFault>)
      ensures received == [] && this.failure == failure
    {
      received := [];
      this.failure := failure;
    }

    method Ingest(request: IngestRequest) returns (fault: Option<PluginFault>)
      modifies this`received
      ensures received == old(received) + [request]
      ensures fault == failure
    {
      received := received + [request];
      fault := failure;
    }
  }

  class RoleCrosswalk {
    /** Packaging parameters configured on the crosswalk; None stands for null. */
    var packagingParameters: Option<PackageParameters>
    /** Licence handed to the ingester; None stands for null. */
    var ingestionLicense: Option<string>

    constructor ()
      ensures packagingParameters == None && ingestionLicense == None
    {
      packagingParameters, ingestionLicense := None, None;
    }

    /** The request `ingest` hands the plugin for `dso` and `root`. */
    function RequestFor(dso: DSpaceObject, root: Element): IngestRequest
      reads this
    {
      IngestRequest(dso, root, EffectiveParameters(packagingParameters), ingestionLicense)
    }

    /** What disseminateElement gives with this crosswalk's packaging parameters. */
    function Exported(dso: DSpaceObject, disseminators: map<string, PackageDisseminator>,
                      parse: TempFile -> ParseOutcome): Result<Option<Element>, CrosswalkError>
      reads this
    {
      DisseminationResult(EffectiveParameters(packagingParameters), dso, disseminators, parse)
    }

    /** getNamespaces: a new one-element array holding the roles namespace. */
    method GetNamespaces() returns (result: array<Namespace>)
      ensures fresh(result)
      ensures result[..] == [DSROLES_NS]
    {
      result := new Namespace[1](_ => DSROLES_NS);
    }

    /** getSchemaLocation: no schema location is known. */
    function GetSchemaLocation(): (location: string)
      ensures location == ""
    {
      ""
    }

    /** preferList: callers should ask for one root element, not a list. */
    function PreferList(): (prefers: bool)
      ensures !prefers
    {
      false
    }

    /**
     * disseminateElement: export the roles of `dso` through the role
     * disseminator and return the root of the XML it produced.  The object
     * type is not checked here; the plugin decides.
     */
    method DisseminateElement(dso: DSpaceObject, disseminators: map<string, PackageDisseminator>,
                              parse: TempFile -> ParseOutcome)
      returns (r: Result<Option<Element>, CrosswalkError>)
      ensures r == Exported(dso, disseminators, parse)
    {
      if ROLE_PACKAGER_PLUGIN !in disseminators {
        return Failure(CrosswalkInternal(PluginMissing));
      }
      var dip := disseminators[ROLE_PACKAGER_PLUGIN];
      var pparams: PackageParameters;
      if packagingParameters.Some? {
        pparams := packagingParameters.value;
      } else {
        pparams := map[];
      }
      var outcome := dip.disseminate(dso, pparams);
      if outcome.Raised? {
        if outcome.fault == PackageFault {
          return Failure(CrosswalkInternal(Wrapped(PackageFault)));
        }
        return Failure(Propagated(outcome.fault));
      }
      var tempFile := outcome.file;
      if tempFile.Present? && |tempFile.bytes| == 0 {
        return Success(None);
      }
      var document := parse(tempFile);
      match document {
        case Parsed(root) =>
          r := Success(root);
        case XmlError =>
          r := Failure(MetadataValidation);
        case ReadError =>
          r := Failure(Propagated(IOFault));
      }
    }

    /**
     * disseminateList as written: it returns the children of the element
     * disseminateElement gives, and so dereferences null when the export had
     * no results.
     */
    method DisseminateListAsWritten(dso: DSpaceObject, disseminators: map<string, PackageDisseminator>,
                                    parse: TempFile -> ParseOutcome)
      returns (r: Result<seq<Element>, CrosswalkError>)
      ensures Exported(dso, disseminators, parse) == Success(None)
        ==> r == Failure(NullDereference)
      ensures Exported(dso, disseminators, parse).Failure?
        ==> r == Failure(Exported(dso, disseminators, parse).error)
      ensures Exported(dso, disseminators, parse).Success? && Exported(dso, disseminators, parse).value.Some?
        ==> r == Success(Exported(dso, disseminators, parse).value.value.children)
    {
      var dim := DisseminateElement(dso, disseminators, parse);
      match dim {
        case Failure(e) => r := Failure(e);
        case Success(None) => r := Failure(NullDereference);
        case Success(Some(root)) => r := Success(root.children);
      }
    }

    /**
     * disseminateList as its documentation promises it: the children of the
     * exported root, and an empty list (never null, never a failure) when
     * the export had no results.
     */
    method DisseminateList(dso: DSpaceObject, disseminators: map<string, PackageDisseminator>,
                           parse: TempFile -> ParseOutcome)
      returns (r: Result<seq<Element>, CrosswalkError>)
      ensures Exported(dso, disseminators, parse) == Success(None)
        ==> r == Success([])
      ensures r.Failure? <==> Exported(dso, disseminators, parse).Failure?
      ensures r.Failure? ==> r.error != NullDereference
      ensures Exported(dso, disseminators, parse).Success? && Exported(dso, disseminators, parse).value.Some?
        ==> r == Success(Exported(dso, disseminators, parse).value.value.children)
    {
      var dim := DisseminateElement(dso, disseminators, parse);
      match dim {
        case Failure(e) => r := Failure(e);
        case Success(None) => r := Success([]);
        case Success(Some(root)) => r := Success(root.children);
      }
    }

    /**
     * ingest(root): restore the roles in `root` onto `dso` through the role
     * ingester.  `writeFails` says whether opening or writing the temporary
     * file fails; serialising a null root dereferences it.  The plugin is
     * handed a request only when the object type is supported, the plugin
     * exists, the root is present and the file was written.
     */
    method Ingest(dso: DSpaceObject, root: Option<Element>, createMissingMetadataFields: bool,
                  ingesters: map<string, PackageIngester>, writeFails: bool)
      returns (r: Result<(), CrosswalkError>)
      modifies RolePlugin(ingesters)
      ensures r == IngestOutcome(dso, ROLE_PACKAGER_PLUGIN in ingesters, writeFails, root.Some?,
                                 if ROLE_PACKAGER_PLUGIN in ingesters then ingesters[ROLE_PACKAGER_PLUGIN].failure else None)
      ensures ROLE_PACKAGER_PLUGIN in ingesters ==>
        ingesters[ROLE_PACKAGER_PLUGIN].received ==
          if CanDisseminate(dso) && !writeFails && root.Some?
          then old(ingesters[ROLE_PACKAGER_PLUGIN].received) + [RequestFor(dso, root.value)]
          else old(ingesters[ROLE_PACKAGER_PLUGIN].received)
    {
      if dso.typeCode != SITE && dso.typeCode != COMMUNITY && dso.typeCode != COLLECTION {
        return Failure(ObjectNotSupported);
      }
      if ROLE_PACKAGER_PLUGIN !in ingesters {
        return Failure(CrosswalkInternal(PluginMissing));
      }
      var sip := ingesters[ROLE_PACKAGER_PLUGIN];
      var pparams: PackageParameters;
      if packagingParameters.Some? {
        pparams := packagingParameters.value;
      } else {
        pparams := map[];
      }
      var license: Option<string> := None;
      if ingestionLicense.Some? {
        license := ingestionLicense;
      }
      if writeFails {
        return Failure(Propagated(IOFault));
      }
      if root.None? {
        return Failure(NullDereference);
      }
      var fault := sip.Ingest(IngestRequest(dso, root.value, pparams, license));
      if fault.Some? {
        if fault.value == PackageFault || fault.value == WorkflowFault {
          return Failure(CrosswalkInternal(Wrapped(fault.value)));
        }
        return Failure(Propagated(fault.value));
      }
      r := Success(());
    }

    /**
     * ingest(list): an empty list ingests nothing and succeeds, whatever the
     * object; otherwise the whole document is ingested once, from the
     * parent (`parentOf`) of the first element.
     */
    method IngestList(dso: DSpaceObject, metadata: seq<Element>, parentOf: Element -> Option<Element>,
                      createMissingMetadataFields: bool, ingesters: map<string, PackageIngester>, writeFails: bool)
      returns (r: Result<(), CrosswalkError>)
      modifies RolePlugin(ingesters)
      ensures metadata == [] ==> r == Success(())
      ensures metadata == [] && ROLE_PACKAGER_PLUGIN in ingesters ==>
        ingesters[ROLE_PACKAGER_PLUGIN].received == old(ingesters[ROLE_PACKAGER_PLUGIN].received)
      ensures metadata != [] ==>
        r == IngestOutcome(dso, ROLE_PACKAGER_PLUGIN in ingesters, writeFails, parentOf(metadata[0]).Some?,
                           if ROLE_PACKAGER_PLUGIN in ingesters then ingesters[ROLE_PACKAGER_PLUGIN].failure else None)
      ensures metadata != [] && ROLE_PACKAGER_PLUGIN in ingesters ==>
        ingesters[ROLE_PACKAGER_PLUGIN].received ==
          if CanDisseminate(dso) && !writeFails && parentOf(metadata[0]).Some?
          then old(ingesters[ROLE_PACKAGER_PLUGIN].received) + [RequestFor(dso, parentOf(metadata[0]).value)]
          else old(ingesters[ROLE_PACKAGER_PLUGIN].received)
    {
      r := Success(());
      if metadata != [] {
        r := Ingest(dso, parentOf(metadata[0]), createMissingMetadataFields, ingesters, writeFails);
      }
    }
  }
}
