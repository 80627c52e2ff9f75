/**
 * The package object: two flags driven by IDE events, the cached cleanup
 * command, the remembered active document, the references to the IDE's
 * event sources, and the handlers that change them.
 */
module CleanupPackage {
  import opened Wrappers
  import opened Host
  import opened SaveFilter
  import opened CommandLookup

  /** The steps of the cleanup sequence that call into the IDE, any of which may throw. */
  datatype Step = ReadActiveDocument | ActivateSaved | ExecuteCleanup | RestoreActive

  /**
   * The IDE calls of the cleanup sequence when nothing throws: activate the
   * saved document, run the command by name, re-activate the document that
   * was active before. With no document active before, the re-activation is a
   * call on null, which throws and makes no call.
   */
  function CleanupCalls(saved: Document, command: string, previous: Option<Document>): (r: seq<HostCall>)
    ensures |r| == if previous.Some? then 3 else 2
    ensures r[0] == Activated(saved) && r[1] == Executed(command)
    ensures previous.Some? ==> r[2] == Activated(previous.value)
  {
    [Activated(saved), Executed(command)] + (match previous case Some(p) => [Activated(p)] case None => [])
  }

  /** How many of those calls complete when `fault` names the step that throws (None: no step throws). */
  function CompletedCalls(fault: Option<Step>, previous: Option<Document>): (r: nat)
    ensures r <= if previous.Some? then 3 else 2
    ensures r == 0 <==> fault == Some(ReadActiveDocument) || fault == Some(ActivateSaved)
  {
    match fault
    case None => if previous.Some? then 3 else 2
    case Some(ReadActiveDocument) => 0
    case Some(ActivateSaved) => 0
    case Some(ExecuteCleanup) => 1
    case Some(RestoreActive) => 2
  }

  /**
   * What the sequence promises, whichever step throws: the command runs at
   * most once, and completes exactly when neither it nor a step before it
   * throws; without a
   * failure the focus ends where it was (or on the saved document when no
   * document had it).
   */
  lemma CleanupSequenceFacts(saved: Document, command: string, previous: Option<Document>, fault: Option<Step>)
    ensures CompletedCalls(fault, previous) <= |CleanupCalls(saved, command, previous)|
    ensures var done := CleanupCalls(saved, command, previous)[..CompletedCalls(fault, previous)];
      && (forall i :: 0 <= i < |done| && done[i].Executed? ==> i == 1 && done[i].command == command)
      && (Executed(command) in done <==> fault.None? || fault == Some(RestoreActive))
      && (fault.None? ==> ActiveAfter(previous, done) == Some(previous.GetOr(saved)))
      && (fault.Some? ==> ActiveAfter(previous, done) == if |done| == 0 then previous else Some(saved))
  {
    var all := CleanupCalls(saved, command, previous);
    var done := all[..CompletedCalls(fault, previous)];
    assert all[0] == Activated(saved) && all[1] == Executed(command);
    if |done| >= 1 {
      assert done[..1] == [Activated(saved)];
      assert ActiveAfter(previous, done[..1]) == Some(saved);
    }
    if |done| >= 2 {
      assert done[..2][..1] == done[..1];
      assert ActiveAfter(previous, done[..2]) == Some(saved);
      assert Executed(command) in done;
    }
    if |done| == 3 {
      assert done[..2] == done[..|done| - 1];
    }
  }

  class Package {
    var dte: Ide?
    var docEvents: EventSource?
    var buildEvents: EventSource?
    var solutionEvents: EventSource?
    var cleanupCommand: Command?
    var activeDocument: Option<Document>
    var building: bool
    var solutionClosing: bool
    var disposed: bool

    /** The event-source references, when held, are the IDE's own; a cached command implies a known IDE. */
    ghost predicate Valid()
      reads this`dte, this`docEvents, this`buildEvents, this`solutionEvents, this`cleanupCommand
    {
      && (dte != null ==> dte.Valid())
      && (docEvents != null ==> dte != null && docEvents == dte.documentEvents)
      && (buildEvents != null ==> dte != null && buildEvents == dte.buildEvents)
      && (solutionEvents != null ==> dte != null && solutionEvents == dte.solutionEvents)
      && (cleanupCommand != null ==> dte != null)
    }

    /** `_cleanupCommand?.IsAvailable`: None when there is no command. */
    function CommandAvailability(): (r: Option<bool>)
      reads this`cleanupCommand, cleanupCommand
      ensures r.None? <==> cleanupCommand == null
      ensures r.Some? ==> r.value == cleanupCommand.isAvailable
    {
      if cleanupCommand == null then None else Some(cleanupCommand.isAvailable)
    }

    /**
     * The save of `doc` passes the guard in the current state: the solution is
     * open, no build runs, a command is cached and available, and the document
     * is writable, belongs to a real project and has an allowed extension.
     */
    function CleanupApplies(doc: Document): (r: bool)
      reads this`solutionClosing, this`building, this`cleanupCommand, cleanupCommand
      ensures r <==>
        && !solutionClosing
        && !building
        && cleanupCommand != null && cleanupCommand.isAvailable
        && !doc.readOnly
        && doc.containingProject.Some? && doc.containingProject.value.name != MiscellaneousFiles
        && exists e :: e in AllowedFileExtensions && EndsWith(ToLower(doc.fullName), e)
    {
      !SkipsCleanup(solutionClosing, building, CommandAvailability(), doc)
    }

    constructor ()
      ensures Valid()
      ensures dte == null && docEvents == null && buildEvents == null && solutionEvents == null
      ensures cleanupCommand == null && activeDocument == None
      ensures !building && !solutionClosing && !disposed
    {
      dte, docEvents, buildEvents, solutionEvents := null, null, null, null;
      cleanupCommand, activeDocument := null, None;
      building, solutionClosing, disposed := false, false, false;
    }

    /**
     * Initialisation: subscribe the four handlers to the IDE's event sources
     * and cache the first command with a known name.
     */
    method Initialize(ide: Ide)
      requires Valid() && ide.Valid()
      modifies this`dte, this`docEvents, this`buildEvents, this`solutionEvents, this`cleanupCommand
      modifies ide.documentEvents, ide.buildEvents, ide.solutionEvents
      ensures Valid()
      ensures dte == ide && docEvents == ide.documentEvents && buildEvents == ide.buildEvents
      ensures solutionEvents == ide.solutionEvents
      ensures ide.documentEvents.handlers == old(ide.documentEvents.handlers) + multiset{DocumentSaved}
      ensures ide.buildEvents.handlers == old(ide.buildEvents.handlers) + multiset{BuildBegin} + multiset{BuildDone}
      ensures ide.solutionEvents.handlers == old(ide.solutionEvents.handlers) + multiset{BeforeClosing}
      ensures cleanupCommand == FindCleanupCommand(ide.commands)
      ensures building == old(building) && solutionClosing == old(solutionClosing)
      ensures disposed == old(disposed) && activeDocument == old(activeDocument)
    {
      var found := FindCleanupCommand(ide.commands);
      dte := ide;
      docEvents := ide.documentEvents;
      docEvents.Subscribe(DocumentSaved);
      buildEvents := ide.buildEvents;
      buildEvents.Subscribe(BuildBegin);
      buildEvents.Subscribe(BuildDone);
      solutionEvents := ide.solutionEvents;
      solutionEvents.Subscribe(BeforeClosing);
      cleanupCommand := found;
    }

    /** The solution starts closing; nothing clears the flag again. */
    method OnBeforeClosing()
      modifies this`solutionClosing
      ensures solutionClosing
    {
      solutionClosing := true;
    }

    /** A build starts, whatever its scope and action. */
    method OnBuildBegin(scope: BuildScope, action: BuildAction)
      modifies this`building
      ensures building
    {
      building := true;
    }

    /** A build ends, whatever its scope and action. */
    method OnBuildDone(scope: BuildScope, action: BuildAction)
      modifies this`building
      ensures !building
    {
      building := false;
    }

    /**
     * A document was saved. When the guard lets it through: remember the
     * active document, activate the saved one, run the cleanup command by
     * name, re-activate the remembered one. `fault` names the IDE call that
     * throws, if any; the exception is caught, so the handler returns normally
     * with the calls made so far.
     */
    method OnDocumentSaved(document: Document, fault: Option<Step>)
      requires Valid()
      modifies this`activeDocument, dte
      ensures Valid()
      ensures !old(CleanupApplies(document)) ==>
        activeDocument == old(activeDocument) &&
        (dte != null ==> dte.activeDocument == old(dte.activeDocument) && dte.calls == old(dte.calls))
      ensures old(CleanupApplies(document)) ==>
        dte != null && cleanupCommand != null &&
        var previous := old(dte.activeDocument);
        var done := CleanupCalls(document, cleanupCommand.name, previous)[..CompletedCalls(fault, previous)];
        && dte.calls == old(dte.calls) + done
        && dte.activeDocument == ActiveAfter(previous, done)
        && activeDocument == if fault == Some(ReadActiveDocument) then old(activeDocument) else previous
      ensures dte != null && cleanupCommand != null ==>
        (Executed(cleanupCommand.name) in dte.calls[|old(dte.calls)|..] <==>
          old(CleanupApplies(document)) && (fault.None? || fault == Some(RestoreActive)))
    {
      if !CleanupApplies(document) {
        assert dte != null ==> dte.calls[|dte.calls|..] == [];
        return;
      }
      RunCleanup(document, cleanupCommand.name, fault);
    }

    /** The body of the save handler once the guard has let the save through. */
    method RunCleanup(document: Document, command: string, fault: Option<Step>)
      requires Valid() && dte != null
      modifies this`activeDocument, dte
      ensures Valid()
      ensures var previous := old(dte.activeDocument);
        var done := CleanupCalls(document, command, previous)[..CompletedCalls(fault, previous)];
        && dte.calls == old(dte.calls) + done
        && dte.activeDocument == ActiveAfter(previous, done)
        && activeDocument == if fault == Some(ReadActiveDocument) then old(activeDocument) else previous
      ensures Executed(command) in dte.calls[|old(dte.calls)|..] <==> fault.None? || fault == Some(RestoreActive)
    {
      var ide := dte;
      ghost var previous := ide.activeDocument;
      ghost var all := CleanupCalls(document, command, previous);
      CleanupSequenceFacts(document, command, previous, fault);
      if fault == Some(ReadActiveDocument) {
        return;
      }
      activeDocument := ide.activeDocument;
      if fault == Some(ActivateSaved) {
        return;
      }
      ide.Activate(document);
      if fault == Some(ExecuteCleanup) {
        assert all[..1] == [Activated(document)];
        return;
      }
      ide.ExecuteCommand(command);
      assert all[..2] == [Activated(document), Executed(command)];
      if fault == Some(RestoreActive) || activeDocument.None? {
        return;
      }
      ide.Activate(activeDocument.value);
    }

    /**
     * Disposal. Only the first call with `disposing` does anything: it marks
     * the package disposed, detaches the save handler and drops the three
     * event-source references. On the build events it attaches both build
     * handlers once more instead of detaching them, as the package does.
     */
    method Dispose(disposing: bool)
      requires Valid()
      modifies this, docEvents, buildEvents, solutionEvents
      ensures Valid()
      ensures dte == old(dte) && cleanupCommand == old(cleanupCommand) && activeDocument == old(activeDocument)
      ensures building == old(building) && solutionClosing == old(solutionClosing)
      ensures !disposing || old(disposed) ==> disposed == old(disposed)
      ensures !disposing || old(disposed) ==>
        docEvents == old(docEvents) && buildEvents == old(buildEvents) && solutionEvents == old(solutionEvents)
      ensures !disposing || old(disposed) ==> docEvents != null ==> docEvents.handlers == old(docEvents.handlers)
      ensures !disposing || old(disposed) ==> buildEvents != null ==> buildEvents.handlers == old(buildEvents.handlers)
      ensures !disposing || old(disposed) ==>
        solutionEvents != null ==> solutionEvents.handlers == old(solutionEvents.handlers)
      ensures disposing && !old(disposed) ==> disposed
      ensures disposing && !old(disposed) ==> docEvents == null && buildEvents == null && solutionEvents == null
      ensures disposing && !old(disposed) && old(docEvents) != null ==>
        old(docEvents).handlers == old(docEvents.handlers) - multiset{DocumentSaved}
      ensures disposing && !old(disposed) && old(buildEvents) != null ==>
        old(buildEvents).handlers == old(buildEvents.handlers) + multiset{BuildBegin, BuildDone}
      ensures disposing && !old(disposed) && old(solutionEvents) != null ==>
        old(solutionEvents).handlers == old(solutionEvents.handlers) - multiset{BeforeClosing}
    {
      if disposing && !disposed {
        disposed := true;

        if docEvents != null {
          docEvents.Unsubscribe(DocumentSaved);
          docEvents := null;
        }

        if buildEvents != null {
          buildEvents.Subscribe(BuildBegin);
          buildEvents.Subscribe(BuildDone);
          assert buildEvents.handlers == old(buildEvents.handlers) + multiset{BuildBegin, BuildDone};
          buildEvents := null;
        }

        if solutionEvents != null {
          solutionEvents.Unsubscribe(BeforeClosing);
          solutionEvents := null;
        }
      }
    }
  }

  /**
   * The package's life as the IDE drives it: initialised, then disposed. The
   * save and closing subscriptions return to what they were before, while
   * each build handler gains two subscriptions; on an IDE with no
   * subscriptions yet, each build handler ends up subscribed twice.
   */
  method InitializeThenDispose(ide: Ide) returns (p: Package)
    requires ide.Valid()
    modifies ide.documentEvents, ide.buildEvents, ide.solutionEvents
    ensures p.disposed && p.dte == ide && p.cleanupCommand == FindCleanupCommand(ide.commands)
    ensures ide.documentEvents.handlers == old(ide.documentEvents.handlers)
    ensures ide.solutionEvents.handlers == old(ide.solutionEvents.handlers)
    ensures ide.buildEvents.handlers == old(ide.buildEvents.handlers) + multiset{BuildBegin, BuildBegin, BuildDone, BuildDone}
    ensures ide.documentEvents.handlers[DocumentSaved] == old(ide.documentEvents.handlers[DocumentSaved])
    ensures ide.solutionEvents.handlers[BeforeClosing] == old(ide.solutionEvents.handlers[BeforeClosing])
    ensures ide.buildEvents.handlers[BuildBegin] == old(ide.buildEvents.handlers[BuildBegin]) + 2
    ensures ide.buildEvents.handlers[BuildDone] == old(ide.buildEvents.handlers[BuildDone]) + 2
  {
    p := new Package();
    p.Initialize(ide);
    p.Dispose(true);
  }
}
