/** The state reducer of src/context/PhoneContext.js. */
module PhoneContext {

  /** A contact as src/components/ContactList.js builds it. */
  datatype Contact = Contact(id: string, name: string, phone: string, notes: string)

  /** An activity entry as src/components/ActivityFeed.js reads it. */
  datatype Entry = Entry(kind: string, to: string, from: string, body: string, timestamp: int)

  datatype State = State(contacts: seq<Contact>, activityLog: seq<Entry>)

  /**
   * A dispatched action. `OtherAction(kind)` stands only for an action whose `type` is none of
   * `ADD_CONTACT`, `UPDATE_CONTACT` and `LOG_ACTIVITY`; those three always arrive as their own case.
   */
  datatype Action =
    | AddContact(contact: Contact)
    | UpdateContact(contact: Contact)
    | LogActivity(entry: Entry)
    | OtherAction(kind: string)

  /** `initialState`: no contacts and an empty activity log. */
  const InitialState := State([], [])

  /** `contacts.map(c => c.id === contact.id ? contact : c)`. */
  function ReplaceById(contacts: seq<Contact>, contact: Contact): (r: seq<Contact>)
    ensures |r| == |contacts|
    ensures forall i :: 0 <= i < |r| ==> r[i] == if contacts[i].id == contact.id then contact else contacts[i]
  {
    if contacts == [] then []
    else [if contacts[0].id == contact.id then contact else contacts[0]] + ReplaceById(contacts[1..], contact)
  }

  /** `reducer`. */
  function Reduce(state: State, action: Action): State {
    match action
    case AddContact(c) => state.(contacts := state.contacts + [c])
    case UpdateContact(c) => state.(contacts := ReplaceById(state.contacts, c))
    case LogActivity(e) => state.(activityLog := [e] + state.activityLog)
    case OtherAction(_) => state
  }

  /** `ADD_CONTACT` appends at the end, keeps the earlier contacts and leaves the log alone. */
  lemma AddContactAppends(state: State, c: Contact)
    ensures var r := Reduce(state, AddContact(c));
            && |r.contacts| == |state.contacts| + 1
            && r.contacts[..|state.contacts|] == state.contacts
            && r.contacts[|state.contacts|] == c
            && r.activityLog == state.activityLog
  {
  }

  /**
   * `UPDATE_CONTACT` keeps the count and order: every contact with the id is replaced, every
   * other one kept, and the log left alone.
   */
  lemma UpdateContactReplaces(state: State, c: Contact)
    ensures var r := Reduce(state, UpdateContact(c));
            && |r.contacts| == |state.contacts|
            && (forall i :: 0 <= i < |r.contacts| && state.contacts[i].id == c.id ==> r.contacts[i] == c)
            && (forall i :: 0 <= i < |r.contacts| && state.contacts[i].id != c.id ==> r.contacts[i] == state.contacts[i])
            && r.activityLog == state.activityLog
  {
  }

  /** `UPDATE_CONTACT` with an id no contact has changes nothing. */
  lemma UpdateAbsentIdKeepsContacts(state: State, c: Contact)
    requires forall i :: 0 <= i < |state.contacts| ==> state.contacts[i].id != c.id
    ensures Reduce(state, UpdateContact(c)) == state
  {
  }

  /** The ids of the contacts, in order. */
  function Ids(contacts: seq<Contact>): (r: seq<string>)
    ensures |r| == |contacts|
    ensures forall i :: 0 <= i < |r| ==> r[i] == contacts[i].id
  {
    if contacts == [] then [] else [contacts[0].id] + Ids(contacts[1..])
  }

  /** `UPDATE_CONTACT` never changes which ids are listed, nor where. */
  lemma UpdateContactKeepsIds(state: State, c: Contact)
    ensures Ids(Reduce(state, UpdateContact(c)).contacts) == Ids(state.contacts)
  {
  }

  /** `LOG_ACTIVITY` prepends: the new entry first, the old log after it, the contacts alone. */
  lemma LogActivityPrepends(state: State, e: Entry)
    ensures var r := Reduce(state, LogActivity(e));
            && r.activityLog[0] == e
            && r.activityLog[1..] == state.activityLog
            && r.contacts == state.contacts
  {
  }

  /** Any other action type returns the state unchanged. */
  lemma OtherActionIsIdentity(state: State, kind: string)
    requires kind !in {"ADD_CONTACT", "UPDATE_CONTACT", "LOG_ACTIVITY"}
    ensures Reduce(state, OtherAction(kind)) == state
  {
  }

  /** The state after `useReducer` has applied the actions in dispatch order. */
  function ReduceAll(state: State, actions: seq<Action>): State
    decreases |actions|
  {
    if actions == [] then state else ReduceAll(Reduce(state, actions[0]), actions[1..])
  }

  /** The entries of the `LOG_ACTIVITY` actions, in dispatch order. */
  function Logged(actions: seq<Action>): seq<Entry> {
    if actions == [] then []
    else (if actions[0].LogActivity? then [actions[0].entry] else []) + Logged(actions[1..])
  }

  /** The contacts of the `ADD_CONTACT` actions, in dispatch order. */
  function Added(actions: seq<Action>): seq<Contact> {
    if actions == [] then []
    else (if actions[0].AddContact? then [actions[0].contact] else []) + Added(actions[1..])
  }

  /** `s` in reverse order. */
  function Reverse<T>(s: seq<T>): (r: seq<T>)
    ensures |r| == |s|
    ensures forall i :: 0 <= i < |r| ==> r[i] == s[|s| - 1 - i]
  {
    if s == [] then [] else Reverse(s[1..]) + [s[0]]
  }

  /** The activity log is newest first: after any dispatches it is the logged entries reversed, then the old log. */
  lemma {:induction false} ReduceAllLogNewestFirst(state: State, actions: seq<Action>)
    ensures ReduceAll(state, actions).activityLog == Reverse(Logged(actions)) + state.activityLog
    decreases |actions|
  {
    if actions != [] {
      var next := Reduce(state, actions[0]);
      ReduceAllLogNewestFirst(next, actions[1..]);
      if actions[0].LogActivity? {
        assert Logged(actions) == [actions[0].entry] + Logged(actions[1..]);
        assert Reverse(Logged(actions)) == Reverse(Logged(actions[1..])) + [actions[0].entry];
      } else {
        assert Logged(actions) == Logged(actions[1..]);
      }
    }
  }

  /** Only `ADD_CONTACT` changes how many contacts there are: one more per added contact. */
  lemma {:induction false} ReduceAllContactCount(state: State, actions: seq<Action>)
    ensures |ReduceAll(state, actions).contacts| == |state.contacts| + |Added(actions)|
    decreases |actions|
  {
    if actions != [] {
      ReduceAllContactCount(Reduce(state, actions[0]), actions[1..]);
    }
  }

  /**
   * What `useReducer(reducer, initialState)` holds after any dispatches: the logged entries
   * newest first, and one contact per `ADD_CONTACT`.
   */
  lemma ReduceAllFromInitial(actions: seq<Action>)
    ensures ReduceAll(InitialState, actions).activityLog == Reverse(Logged(actions))
    ensures |ReduceAll(InitialState, actions).contacts| == |Added(actions)|
  {
    ReduceAllLogNewestFirst(InitialState, actions);
    ReduceAllContactCount(InitialState, actions);
    assert Reverse(Logged(actions)) + [] == Reverse(Logged(actions));
  }
}
