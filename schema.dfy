/** The records the room mutates in place: a player and the room state. */
module Schema {
  import opened Movement

  /** One entry of a player's untyped input queue. A truthy entry is read
      through its `left`, `right`, `up` and `down` properties (a truthy
      value without those properties reads as all keys released); a falsy
      entry (`undefined`, `null`, `false`, `0`, `""`) ends a drain. */
  datatype Payload = Command(input: Input) | Falsy

  /** The value of a `Player` object at one moment. */
  datatype PlayerView = PlayerView(x: real, y: real, queue: seq<Payload>)

  /** The part of a player that is synchronized to clients: only the two
      fields declared with a schema type. The input queue is server-local. */
  datatype SyncedPlayer = SyncedPlayer(x: real, y: real)

  /** What clients receive for one player. */
  function Synced(p: PlayerView): SyncedPlayer
  {
    SyncedPlayer(p.x, p.y)
  }

  /** Two player values that differ only in their input queues look the same
      to every client. */
  lemma QueueIsNotSynchronized(p: PlayerView, q: seq<Payload>)
    ensures Synced(p.(queue := q)) == Synced(p)
  {
  }

  /** What clients receive for the whole players map. */
  function SyncedMap(s: map<string, PlayerView>): map<string, SyncedPlayer>
  {
    map k | k in s :: Synced(s[k])
  }

  /** Two players maps with the same session ids and the same positions look
      the same to every client, whatever their input queues hold. */
  lemma {:induction false} QueuesAreNotSynchronized(s1: map<string, PlayerView>, s2: map<string, PlayerView>)
    requires s1.Keys == s2.Keys
    requires forall k :: k in s1 ==> s1[k].x == s2[k].x && s1[k].y == s2[k].y
    ensures SyncedMap(s1) == SyncedMap(s2)
  {
    forall k | k in s1
      ensures Synced(s1[k]) == Synced(s2[k])
    {
      QueueIsNotSynchronized(s1[k], s2[k].queue);
      assert s1[k].(queue := s2[k].queue) == s2[k];
    }
  }

  /** The whole state as clients receive it: the greeting and, per session
      id, the synchronized position. */
  datatype SyncedState = SyncedState(greeting: string, players: map<string, SyncedPlayer>)

  const InitialGreeting: string := "Hello world"

  class Player {
    var x: real
    var y: real
    var inputQueue: seq<Payload>

    /** A new player starts with an empty queue; its position is not set
        until the room places it. */
    constructor ()
      ensures inputQueue == []
    {
      inputQueue := [];
    }

    function View(): PlayerView
      reads this
    {
      PlayerView(x, y, inputQueue)
    }
  }

  class MyRoomState {
    var mySynchronizedProperty: string
    var players: map<string, Player>

    /** A new room state: the greeting text and no players. */
    constructor ()
      ensures mySynchronizedProperty == InitialGreeting
      ensures players == map[]
      ensures Valid() && Snapshot() == map[]
    {
      mySynchronizedProperty := InitialGreeting;
      players := map[];
    }

    /** Each session id maps to its own player object (a map has unique
        keys; this adds that no object is shared between two keys). */
    ghost predicate Valid()
      reads this
    {
      forall k, k' :: k in players && k' in players && k != k' ==> players[k] != players[k']
    }

    /** The value of every player, by session id. */
    function Snapshot(): map<string, PlayerView>
      reads this, players.Values
    {
      map k | k in players :: players[k].View()
    }

    /** The part of the state clients receive: both fields declared with a
        schema type, the players seen through `Synced`. */
    function Synchronized(): SyncedState
      reads this, players.Values
    {
      SyncedState(mySynchronizedProperty, SyncedMap(Snapshot()))
    }
  }
}
