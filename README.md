# ReAct invoice agent — Dafny model

This project models the core of a ReAct-style invoice assistant built on a graph runtime:

- **`Graph`** (`graph.dfy`) is the agent's control graph. It has five nodes: `thinking`, `thought`, `call_model`, `tools` and `observation`. The single exit is `__end__`, called `End` here. The module holds:
  - the five routers and the way the conditional edges wire them;
  - `call_model`'s last-step substitution of a fixed apology message;
  - the messages each node appends;
  - a `Run` method that drives the graph from its entry `thinking` until a router returns `End`. `Run` keeps the history, the current node and a step counter that goes down once per node.
- **`Tools`** (`tools.py`'s invoice tools, in `tools.dfy`) covers the substring search over invoices, the first-match department lookup, the sum of line totals, the e-mail membership test, the filter for unpaid invoices due before a date, and the guarded payment-status update. The source keeps its tables in module-level lists. Here they are parameters. The mutated invoice store is an `InvoiceLedger` object.
- **`Wrappers`** (`wrappers.dfy`) holds `Option` and `Result`.

The abstract inputs are:
- The chat model is a total function `Backend` from the calling node and the history to an AI message.
- The tool registry is a function `Executor` from a tool call to its result text. A tool that fails or is not found still produces a result text.
- The step budget behind `is_last_step` is a natural number `remaining`. A node runs on its last step when `remaining == 0`. After each node the counter goes down by one, with a floor of zero. The node and its router see the same `is_last_step`.

The history keeps the reply of every advisory node (`thinking`, `thought`, `observation`). The payment status rule is modelled as written: a payment made before the due date marks the invoice "overdue".

Two behaviours of `route_model_output` are worth stating:
- It does not look at the budget at all.
- An empty history makes it fail (Python's `messages[-1]` raises), just as a last message that is not an AI message does.

## Model

| member | source | states |
|---|---|---|
| Graph.RouteThinking | src/react_agent/graph.py:174-178 | returns one of its declared targets; returns `End` exactly when it is the last step, and `thought` otherwise |
| Graph.RouteThought | src/react_agent/graph.py:180-184 | returns one of its declared targets; returns `End` exactly on the last step, and `call_model` otherwise |
| Graph.RouteModelOutput | src/react_agent/graph.py:186-206 | fails on an empty history or a last message that is not an AI message; otherwise succeeds with `tools` exactly when the last AI message has tool calls, and `End` otherwise |
| Graph.RouteTools | src/react_agent/graph.py:208-212 | returns `End` exactly on the last step, and `observation` otherwise |
| Graph.RouteObservation | src/react_agent/graph.py:214-218 | returns `End` exactly on the last step, and `thinking` otherwise |
| Graph.Route | src/react_agent/graph.py:220-225 | every node's router returns only targets that node declares; only call_model's router can fail; every other router ends the run exactly on the last step |
| Graph.RouteModelOutputIgnoresBudget | src/react_agent/graph.py:186-206 | the answer of `route_model_output` is the same whether or not it is the last step |
| Graph.GuardedEdgesFollowCycle | src/react_agent/graph.py:221-225 | off the last step, the budget-guarded edges go thinking → thought → call_model and tools → observation → thinking |
| Graph.CallModelUpdate | src/react_agent/graph.py:51-63 | call_model adds exactly one AI message with the reply's id. On the last step a reply with tool calls becomes the fixed apology with no tool calls; otherwise the reply is added unchanged. On the last step the added message never has tool calls |
| Graph.ToolResults | src/react_agent/graph.py:169 | the tool node adds one tool-result message per call, in call order, each carrying its call's id and the executor's result |
| Graph.NodeUpdate | src/react_agent/graph.py:63-157 | thinking, thought and observation each add exactly the model's reply, one AI message; call_model adds one AI message; tools adds only tool results, one per call of the last AI message |
| Graph.LastStepCallModelEnds | src/react_agent/graph.py:51-63 | a call_model run on the last step is always routed to `End`, never to `tools` |
| Graph.CallModelRouteDefined | src/react_agent/graph.py:197-201 | after call_model, `route_model_output` never raises, because the last message is the model's AI message |
| Graph.LastStepEnds | src/react_agent/graph.py:174-218 | whatever node runs on the last step and whatever the model answers, the next node is `End` |
| Graph.AnsweredAfterTools | src/react_agent/graph.py:169 | appending the tool node's results keeps every tool result tied to a call of the AI message right before its block of results |
| Graph.Run | src/react_agent/graph.py:162-228 | the run starts at `thinking` and always stops after between 1 and budget + 1 nodes. Node i runs on its last step exactly when i equals the budget. Each node appends its own messages to the history it saw. Each next node is the answer of the previous node's router, and the final node's router answers `End`. The input history is kept as a prefix. An exit through a router other than call_model's happens only once the budget is spent. An exit through call_model leaves a last AI message with no tool calls. Every appended tool result answers a call of the AI message that precedes its block |
| Tools.BeforeIsStrictTotalOrder | src/react_agent/tools.py:612-614 | comparing parsed dates is irreflexive, transitive and total |
| Tools.ContainsIff | src/react_agent/tools.py:496 | the substring test holds exactly when the query occurs in the string at some offset |
| Tools.EmptyQueryMatchesAll | src/react_agent/tools.py:496 | the empty query is contained in every string |
| Tools.MatchingInvoicesMembers | src/react_agent/tools.py:494-498 | an invoice is selected exactly when it is in the store and its id contains the query |
| Tools.EmptyQuerySelectsAll | src/react_agent/tools.py:494-498 | the empty query returns the whole store, in order |
| Tools.ParseInvoiceData | src/react_agent/tools.py:482-498 | the scan returns the store-order filter of invoices whose id contains the query, and exactly those invoices |
| Tools.CrossReferencePo | src/react_agent/tools.py:536-549 | returns `None` exactly when no department id contains the PO number; otherwise returns the name of the first such department in table order |
| Tools.SumOfTotalsAppend | src/react_agent/tools.py:560-563 | the invoice total adds up over concatenated item lists |
| Tools.SumOfTotalsNonNegative | src/react_agent/tools.py:560-563 | when no line total is negative, neither is the invoice total |
| Tools.SumOfTotalsIgnoresPrice | src/react_agent/tools.py:560-563 | two item lists that agree on every stored line total have the same invoice total, whatever their quantities and prices |
| Tools.ComputeInvoiceTotals | src/react_agent/tools.py:551-563 | the accumulated total equals the sum of the stored line totals, and is 0 for an invoice with no items |
| Tools.PeopleDirectory | src/react_agent/tools.py:565-571 | returns the whole directory, whichever department is given |
| Tools.UnpaidDueBeforeMembers | src/react_agent/tools.py:611-616 | an invoice is reported exactly when it is in the store, its status is "unpaid" and it fell due strictly before the given date |
| Tools.UnpaidDueBeforeSound | src/react_agent/tools.py:611-616 | every reported invoice is unpaid and due strictly before the given date |
| Tools.QueryUnpaidInvoices | src/react_agent/tools.py:603-616 | the scan returns, in store order, exactly the unpaid invoices due strictly before the date; the department argument takes no part |
| Tools.SendNotificationEmail | src/react_agent/tools.py:618-629 | returns true exactly when the recipient equals some directory e-mail; it changes nothing |
| Tools.RecordPayment | src/react_agent/tools.py:586-591 | a payment before the due date sets the status to "overdue"; any other payment sets the requested status; the payment date is recorded; no other field changes |
| Tools.RecordPaymentIdempotent | src/react_agent/tools.py:586-592 | recording the same payment twice gives the same invoice as recording it once |
| Tools.InvoiceLedger.UpdateInvoicePaymentStatus | src/react_agent/tools.py:574-592 | returns false and changes nothing when the status is not paid, unpaid or overdue, or when the payment date is missing; fails on an unknown id; otherwise records the payment on that invoice, returns true and leaves every other invoice unchanged |

## Left out

- The chat-model calls (`load_chat_model`, `bind_tools`, `ainvoke`) are the `Backend` oracle. The prompt texts, the system prompt with its wall-clock time and `Configuration.from_context` are not modelled, because they only shape what the oracle is asked.
- Graph compilation (`StateGraph`, `compile`) and the internals of `ToolNode` are reduced to "the tool node appends one result per call". This leaves out the tool lookup, error capture, and the possibly concurrent or asynchronous execution of several calls. The results are appended in call order.
- The step counter behind `is_last_step` lives in `react_agent.state` and the graph runtime, which are not part of this model. It is the abstract counter described above. The runtime's recursion-limit logic is not reconstructed.
- Graph.Run: cancellation, backend failures and the `GraphRecursionError` of the runtime are not modelled, since the oracle always answers.
- `calculator` is not modelled, because it evaluates arbitrary text with Python's `eval`.
- `validate_invoice_data` and `detect_duplicate_invoice` are not modelled. Both iterate over the keys of a dict and index those strings by `"invoice_id"`, so any non-empty input raises. They have no behaviour to state.
- `get_invoice_payment_status` is not modelled, because it indexes the invoice list by a string id, which always raises.
- Tools.InvoiceLedger.UpdateInvoicePaymentStatus: the source indexes its invoice list by a string id, which raises whenever both guards pass. The model departs from it on purpose and keys the store by invoice id, so that the update branch means something. An unknown id is an error result (the `KeyError` of a dict). Only the two guards follow the source exactly.
- Date parsing with `strptime`, and its failures, is not modelled. Dates are already-parsed (year, month, day) triples.
- Tools.InvoiceLedger.UpdateInvoicePaymentStatus: the payment date is taken to be a well-formed, zero-padded YYYY-MM-DD date, compared by calendar order. The source checks no format and compares the two dates as text. Text order agrees with calendar order only for such strings ("2023-1-5" sorts after "2023-01-31"), so the model does not capture the comparison of malformed dates.
- The twenty-record invoice table is a parameter (`store`, or the ledger's map) rather than a constant. The tools read it and never depend on its particular contents.
- The commented-out web search tool is not modelled.
- The `float` annotations on totals are not modelled as floating point, because every amount is an integer; amounts are unbounded `int`.
