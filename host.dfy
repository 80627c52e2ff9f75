/**
 * The part of the IDE's object model that the package touches: documents and
 * their projects, named commands, the event sources the package subscribes
 * to, and the IDE object itself with its active document. Every call the
 * package makes into the IDE is recorded in a log, so that the order of the
 * calls can be stated.
 */
module Host {
  import opened Wrappers

  /** A project of the open solution; only its name is consulted. */
  datatype Project = Project(name: string)

  /** A document open in the IDE. `containingProject` is None when the IDE reports no containing project. */
  datatype Document = Document(fullName: string, readOnly: bool, containingProject: Option<Project>)

  /** A named IDE command; whether it is available changes while the IDE runs. */
  class Command {
    const name: string
    var isAvailable: bool

    constructor (name: string, isAvailable: bool)
      ensures this.name == name && this.isAvailable == isAvailable
    {
      this.name := name;
      this.isAvailable := isAvailable;
    }
  }

  /** The arguments the IDE passes to the build notifications; the package ignores both. */
  datatype BuildScope = ScopeSolution | ScopeBatch | ScopeProject
  datatype BuildAction = ActionBuild | ActionRebuildAll | ActionClean | ActionDeploy

  /** The package's four event handlers, as entries of an event's invocation list. */
  datatype Handler = DocumentSaved | BuildBegin | BuildDone | BeforeClosing

  /**
   * An event source of the IDE. `handlers` counts how often each of the
   * package's handlers is subscribed: `+=` adds one subscription, `-=` removes
   * one and does nothing when the handler is not subscribed.
   */
  class EventSource {
    var handlers: multiset<Handler>

    constructor ()
      ensures handlers == multiset{}
    {
      handlers := multiset{};
    }

    method Subscribe(h: Handler)
      modifies this
      ensures handlers == old(handlers) + multiset{h}
    {
      handlers := handlers + multiset{h};
    }

    method Unsubscribe(h: Handler)
      modifies this
      ensures handlers == old(handlers) - multiset{h}
    {
      handlers := handlers - multiset{h};
    }
  }

  /**
   * Multiset identities which, read with the `ensures` of `Subscribe` and
   * `Unsubscribe`, give what they do to the number of subscriptions of the
   * handler: `+=` adds one; `-=` removes one, or none when there is none.
   */
  lemma SubscriptionCount(handlers: multiset<Handler>, h: Handler)
    ensures (handlers + multiset{h})[h] == handlers[h] + 1
    ensures (handlers - multiset{h})[h] == if handlers[h] == 0 then 0 else handlers[h] - 1
  {
  }

  /** A call the package makes into the IDE. */
  datatype HostCall = Activated(doc: Document) | Executed(command: string)

  /**
   * The active document after the calls `calls`, starting from `start`: the
   * document of the last activation, or `start` when nothing was activated.
   */
  function ActiveAfter(start: Option<Document>, calls: seq<HostCall>): (r: Option<Document>)
    ensures (forall i :: 0 <= i < |calls| ==> !calls[i].Activated?) ==> r == start
    ensures forall i ::
              (0 <= i < |calls| && calls[i].Activated? && forall j :: i < j < |calls| ==> !calls[j].Activated?)
              ==> r == Some(calls[i].doc)
  {
    if calls == [] then start
    else match calls[|calls| - 1]
      case Activated(d) => Some(d)
      case Executed(_) => ActiveAfter(start, calls[..|calls| - 1])
  }

  /**
   * The IDE object (the automation root): its commands, its three event
   * sources, its active document and the log of calls received.
   */
  class Ide {
    const commands: seq<Command>
    const documentEvents: EventSource
    const buildEvents: EventSource
    const solutionEvents: EventSource
    var activeDocument: Option<Document>
    var calls: seq<HostCall>

    /** The three event sources are distinct objects. */
    ghost predicate Valid() {
      documentEvents != buildEvents && documentEvents != solutionEvents && buildEvents != solutionEvents
    }

    constructor (commands: seq<Command>, active: Option<Document>)
      ensures Valid()
      ensures this.commands == commands && activeDocument == active && calls == []
      ensures fresh(documentEvents) && fresh(buildEvents) && fresh(solutionEvents)
      ensures documentEvents.handlers == multiset{} && buildEvents.handlers == multiset{}
      ensures solutionEvents.handlers == multiset{}
    {
      this.commands := commands;
      documentEvents := new EventSource();
      buildEvents := new EventSource();
      solutionEvents := new EventSource();
      activeDocument := active;
      calls := [];
    }

    /** `Document.Activate`: the document gets the focus. */
    method Activate(doc: Document)
      modifies this`activeDocument, this`calls
      ensures calls == old(calls) + [Activated(doc)]
      ensures activeDocument == Some(doc)
    {
      calls := calls + [Activated(doc)];
      activeDocument := Some(doc);
    }

    /** `DTE.ExecuteCommand`: runs the named command; the command's own effect on the text is not modelled. */
    method ExecuteCommand(name: string)
      modifies this`calls
      ensures calls == old(calls) + [Executed(name)]
    {
      calls := calls + [Executed(name)];
    }
  }
}
