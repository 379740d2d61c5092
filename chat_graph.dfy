/**
  The agentic retrieval graph of the chat side: five nodes between START and
  END, the two routing functions over the message list, and the edge table
  the builder declares. The nodes themselves (language-model and retriever
  calls) are not modelled; only which node may follow which.
*/
module ChatGraph {
  import opened Wrappers

  datatype ToolCall = ToolCall(id: string, name: string, args: string)

  /** A chat message; `content` is the plain-text form of a message's content. */
  datatype Message =
    | HumanMessage(content: string)
    | AIMessage(content: string, toolCalls: seq<ToolCall>)
    | ToolMessage(content: string)
    | SystemMessage(content: string)

  datatype Node = Start | GenerateQueryOrRespond | Retrieve | GradeDocuments | Rewrite | Generate | End

  /** `messages[messages.length - 1].content` on an empty list throws a TypeError. */
  datatype RouteError = NoLastMessage

  /** The message `messages[messages.length - 1]` denotes, `None` standing for `undefined`. */
  function LastMessage(messages: seq<Message>): (r: Option<Message>)
    ensures r.None? <==> messages == []
    ensures r.Some? ==> r.value == messages[|messages| - 1]
  {
    if messages == [] then None else Some(messages[|messages| - 1])
  }

  /** `shouldRetrieve`: go to the retriever when the model asked for a tool, otherwise stop. */
  function ShouldRetrieve(messages: seq<Message>): (r: Node)
    ensures r == Retrieve || r == End
    ensures r == Retrieve <==>
      messages != [] && messages[|messages| - 1].AIMessage? && |messages[|messages| - 1].toolCalls| > 0
  {
    match LastMessage(messages)
    case Some(AIMessage(_, toolCalls)) => if |toolCalls| > 0 then Retrieve else End
    case _ => End
  }

  /** `gradeDocumentsDecision`: generate when the last message reads exactly "generate", otherwise rewrite. */
  function GradeDocumentsDecision(messages: seq<Message>): (r: Result<Node, RouteError>)
    ensures r.Failure? <==> messages == []
    ensures r.Success? ==> (r.value == Generate <==> messages[|messages| - 1].content == "generate")
    ensures r.Success? ==> (r.value == Rewrite <==> messages[|messages| - 1].content != "generate")
  {
    match LastMessage(messages)
    case None => Failure(NoLastMessage)
    case Some(lastMessage) => Success(if lastMessage.content == "generate" then Generate else Rewrite)
  }

  // ---------------------------------------------------------------------
  // The edge table

  datatype Router = ShouldRetrieveRouter | GradeDocumentsRouter

  datatype EdgeDecl = AddEdge(from: Node, to: Node) | AddConditionalEdges(from: Node, router: Router)

  /** The builder's `addEdge` / `addConditionalEdges` calls, in order. */
  const Builder: seq<EdgeDecl> := [
    AddEdge(Start, GenerateQueryOrRespond),
    AddConditionalEdges(GenerateQueryOrRespond, ShouldRetrieveRouter),
    AddEdge(Retrieve, GradeDocuments),
    AddConditionalEdges(GradeDocuments, GradeDocumentsRouter),
    AddEdge(Generate, End),
    AddEdge(Rewrite, GenerateQueryOrRespond)
  ]

  /** The nodes a router can return. */
  function RouterTargets(router: Router): set<Node>
  {
    match router
    case ShouldRetrieveRouter => {Retrieve, End}
    case GradeDocumentsRouter => {Generate, Rewrite}
  }

  function Route(router: Router, messages: seq<Message>): Result<Node, RouteError>
  {
    match router
    case ShouldRetrieveRouter => Success(ShouldRetrieve(messages))
    case GradeDocumentsRouter => GradeDocumentsDecision(messages)
  }

  /** A router returns only its declared targets, and every declared target is returned for some message list. */
  lemma RouterTargetsExact(router: Router)
    ensures forall messages: seq<Message> :: Route(router, messages).Success? ==> Route(router, messages).value in RouterTargets(router)
    ensures forall to :: to in RouterTargets(router) ==> exists messages: seq<Message> :: Route(router, messages) == Success(to)
  {
    var call := AIMessage("", [ToolCall("call", "retrieve", "{}")]);
    var answer := AIMessage("", []);
    var verdict := HumanMessage("generate");
    var other := HumanMessage("rewrite");
    assert Route(ShouldRetrieveRouter, [call]) == Success(Retrieve);
    assert Route(ShouldRetrieveRouter, [answer]) == Success(End);
    assert Route(GradeDocumentsRouter, [verdict]) == Success(Generate);
    assert Route(GradeDocumentsRouter, [other]) == Success(Rewrite);
  }

  predicate DeclLinks(decl: EdgeDecl, from: Node, to: Node)
  {
    match decl
    case AddEdge(a, b) => a == from && b == to
    case AddConditionalEdges(a, router) => a == from && to in RouterTargets(router)
  }

  /** The graph has an edge from `from` to `to`: some declaration of the builder links them. */
  predicate Edge(from: Node, to: Node)
  {
    exists i :: 0 <= i < |Builder| && DeclLinks(Builder[i], from, to)
  }

  /**
    The edge table: START leads to generateQueryOrRespond, which routes to
    retrieve or END; retrieve leads to gradeDocuments, which routes to generate
    or rewrite; generate ends and rewrite loops back. Nothing else.
  */
  lemma EdgeTable(from: Node, to: Node)
    ensures Edge(from, to) <==> (from, to) in {
      (Start, GenerateQueryOrRespond),
      (GenerateQueryOrRespond, Retrieve), (GenerateQueryOrRespond, End),
      (Retrieve, GradeDocuments),
      (GradeDocuments, Generate), (GradeDocuments, Rewrite),
      (Generate, End),
      (Rewrite, GenerateQueryOrRespond)}
  {
    if Edge(from, to) {
      var i :| 0 <= i < |Builder| && DeclLinks(Builder[i], from, to);
      assert i == 0 || i == 1 || i == 2 || i == 3 || i == 4 || i == 5;
    }
    var k := if (from, to) == (Start, GenerateQueryOrRespond) then 0
      else if from == GenerateQueryOrRespond then 1
      else if from == Retrieve then 2
      else if from == GradeDocuments then 3
      else if from == Generate then 4
      else 5;
    if DeclLinks(Builder[k], from, to) {
      assert Edge(from, to);
    }
  }

  /** END is entered only from generateQueryOrRespond (through `shouldRetrieve`) or from generate. */
  lemma EndOnlyFrom(from: Node)
    ensures Edge(from, End) <==> from == GenerateQueryOrRespond || from == Generate
  {
    EdgeTable(from, End);
  }

  /** Nothing enters START and nothing leaves END. */
  lemma StartAndEndAreTerminals(n: Node)
    ensures !Edge(n, Start)
    ensures !Edge(End, n)
  {
    EdgeTable(n, Start);
    EdgeTable(End, n);
  }

  // ---------------------------------------------------------------------
  // Stepping through the graph

  /** The first declaration leaving `from`. */
  function Outgoing(decls: seq<EdgeDecl>, from: Node): (r: Option<EdgeDecl>)
    ensures r.Some? ==> r.value in decls && r.value.from == from
    ensures r.None? ==> forall i :: 0 <= i < |decls| ==> decls[i].from != from
  {
    if decls == [] then None
    else if decls[0].from == from then Some(decls[0])
    else Outgoing(decls[1..], from)
  }

  datatype StepError = Routing(error: RouteError) | NoOutgoingEdge

  /** The node the compiled graph runs after `node`, given the messages once `node` has run. */
  function Next(node: Node, messages: seq<Message>): Result<Node, StepError>
  {
    match Outgoing(Builder, node)
    case None => Failure(NoOutgoingEdge)
    case Some(AddEdge(_, to)) => Success(to)
    case Some(AddConditionalEdges(_, router)) =>
      match Route(router, messages)
      case Failure(e) => Failure(Routing(e))
      case Success(to) => Success(to)
  }

  /**
    Every step taken is an edge of the table; only END has no next node, and
    only gradeDocuments can fail to choose one (on an empty message list).
  */
  lemma NextFollowsEdges(node: Node, messages: seq<Message>)
    ensures Next(node, messages).Success? ==> Edge(node, Next(node, messages).value)
    ensures Next(node, messages) == Failure(NoOutgoingEdge) <==> node == End
    ensures Next(node, messages).Failure? <==> node == End || (node == GradeDocuments && messages == [])
  {
    var o := Outgoing(Builder, node);
    if o.Some? {
      var i :| 0 <= i < |Builder| && Builder[i] == o.value;
      var r := Next(node, messages);
      if r.Success? {
        assert DeclLinks(Builder[i], node, r.value);
      }
    }
    assert node == End ==> o.None?;
  }

  /** A run of the graph from START: every consecutive pair is an edge. */
  predicate Run(path: seq<Node>)
  {
    |path| > 0 && path[0] == Start && forall i :: 0 < i < |path| ==> Edge(path[i - 1], path[i])
  }

  /** The answer is generated only right after a retrieval was graded: generateQueryOrRespond, retrieve, gradeDocuments, generate. */
  lemma GenerateFollowsGrading(path: seq<Node>, i: nat)
    requires Run(path) && i < |path| && path[i] == Generate
    ensures i >= 3
    ensures path[i - 1] == GradeDocuments && path[i - 2] == Retrieve && path[i - 3] == GenerateQueryOrRespond
  {
    SinglePredecessors();
    PredecessorOf(path, i, Generate, GradeDocuments);
    PredecessorOf(path, i - 1, GradeDocuments, Retrieve);
    PredecessorOf(path, i - 2, Retrieve, GenerateQueryOrRespond);
  }

  /** When a node has a single predecessor in the table, a run reaches it only from there. */
  lemma PredecessorOf(path: seq<Node>, i: nat, n: Node, pred: Node)
    requires Run(path) && i < |path| && path[i] == n
    requires n != Start
    requires forall m :: Edge(m, n) ==> m == pred
    ensures i > 0 && path[i - 1] == pred
  {
    if i > 0 {
      assert Edge(path[i - 1], path[i]);
    }
  }

  /** Each of these nodes has exactly one predecessor. */
  lemma SinglePredecessors()
    ensures forall m :: Edge(m, Generate) ==> m == GradeDocuments
    ensures forall m :: Edge(m, GradeDocuments) ==> m == Retrieve
    ensures forall m :: Edge(m, Retrieve) ==> m == GenerateQueryOrRespond
    ensures forall m :: Edge(m, Rewrite) ==> m == GradeDocuments
  {
    forall m ensures Edge(m, Generate) ==> m == GradeDocuments {
      EdgeTable(m, Generate);
    }
    forall m ensures Edge(m, GradeDocuments) ==> m == Retrieve {
      EdgeTable(m, GradeDocuments);
    }
    forall m ensures Edge(m, Retrieve) ==> m == GenerateQueryOrRespond {
      EdgeTable(m, Retrieve);
    }
    forall m ensures Edge(m, Rewrite) ==> m == GradeDocuments {
      EdgeTable(m, Rewrite);
    }
  }

  /** Every node lies on a run from START to END, through at most one rewrite. */
  lemma EveryNodeOnACompleteRun(n: Node)
    ensures exists path :: Run(path) && path[|path| - 1] == End && n in path
  {
    var path := [Start, GenerateQueryOrRespond, Retrieve, GradeDocuments, Rewrite,
                 GenerateQueryOrRespond, Retrieve, GradeDocuments, Generate, End];
    forall i | 0 < i < |path| ensures Edge(path[i - 1], path[i]) {
      EdgeTable(path[i - 1], path[i]);
    }
    assert Run(path);
    assert n in path;
  }
}
