/** The job record, its status vocabulary, the Redis keys it lives under, and the Redis
    commands the queue issues. One value of `Store` is the part of Redis the queue owns. */
module JobModel {
  type Id = string

  datatype Status = Pending | Processing | Completed | Failed | Dead {
    predicate Terminal() { Completed? || Failed? || Dead? }
  }

  /** `expires` says whether the blob was last written with a TTL (SETEX) or without one (SET).
      The empty worker name means that nobody has claimed the job yet. */
  datatype Job = Job(jtype: string, status: Status, worker: string, retryCount: int, maxRetries: int,
                     result: string, error: string, expires: bool)

  /** The Redis lists. */
  datatype Key = Queue(jtype: string) | InFlight(worker: string) | Dlq(jtype: string)

  function KeyName(k: Key): string {
    match k
    case Queue(t) => "jobs:queue:" + t
    case InFlight(w) => "jobs:processing:" + w
    case Dlq(t) => "jobs:dlq:" + t
  }

  const DLQ_ALL := "jobs:dlq:_all"

  /** A key name tells its schema and the rest. */
  lemma KeyParts(k: Key)
    ensures var s := KeyName(k);
      match k
      case Queue(t) => |s| >= 11 && s[5] == 'q' && s[11..] == t
      case InFlight(w) => |s| >= 16 && s[5] == 'p' && s[16..] == w
      case Dlq(t) => |s| >= 9 && s[5] == 'd' && s[9..] == t
  {}

  lemma IndexName()
    ensures DLQ_ALL == KeyName(Dlq("_all"))
  {}

  /** Two lists never share a Redis key, and the one list whose key collides with the index
      set is the dead-letter list of a job type called "_all". */
  lemma KeysAreDistinct(a: Key, b: Key)
    ensures KeyName(a) == KeyName(b) ==> a == b
    ensures KeyName(a) == DLQ_ALL <==> a == Dlq("_all")
  {
    hide KeyName;
    IndexName();
    KeyParts(a);
    KeyParts(b);
    KeyParts(Dlq("_all"));
  }

  ghost predicate NoDup<T(!new)>(l: seq<T>) {
    forall i, j :: 0 <= i < j < |l| ==> l[i] != l[j]
  }

  ghost predicate Clean(lists: map<Key, seq<Id>>) {
    forall k :: k in lists ==> NoDup(lists[k])
  }

  /** LREM key 0 id: every occurrence goes, the rest keeps its order. */
  function Without(l: seq<Id>, id: Id): (r: seq<Id>)
    ensures forall x :: x in r <==> x in l && x != id
    ensures NoDup(l) ==> NoDup(r)
    ensures id !in l ==> r == l
    decreases |l|
  {
    if l == [] then [] else
      var last := |l| - 1;
      var front := Without(l[..last], id);
      assert l == l[..last] + [l[last]];
      assert NoDup(l) ==> l[last] !in front;
      if l[last] == id then front else front + [l[last]]
  }

  datatype Store = Store(blobs: map<Id, Job>, lists: map<Key, seq<Id>>, delayed: map<Id, int>,
                         leases: map<Id, int>, dlqAll: set<Id>)
  {
    function At(k: Key): seq<Id> { if k in lists then lists[k] else [] }
    function SetBlob(id: Id, job: Job): Store { this.(blobs := blobs[id := job.(expires := false)]) }
    function SetExBlob(id: Id, job: Job): Store { this.(blobs := blobs[id := job.(expires := true)]) }
    function LPush(k: Key, id: Id): (r: Store)
      ensures Clean(lists) && id !in At(k) ==> Clean(r.lists)
    { this.(lists := lists[k := [id] + At(k)]) }
    function RPush(k: Key, id: Id): (r: Store)
      ensures Clean(lists) && id !in At(k) ==> Clean(r.lists)
    { this.(lists := lists[k := At(k) + [id]]) }
    function LRem(k: Key, id: Id): (r: Store)
      ensures Clean(lists) ==> Clean(r.lists)
    { this.(lists := lists[k := Without(At(k), id)]) }
    function Tail(k: Key): Id
      requires At(k) != []
    { At(k)[|At(k)| - 1] }
    /** RPOP takes Tail(k). */
    function RPop(k: Key): (r: Store)
      requires At(k) != []
      ensures Clean(lists) ==> Clean(r.lists) && Tail(k) !in r.At(k)
      ensures forall x :: x in At(k) <==> x in r.At(k) || x == Tail(k)
    {
      assert At(k) == At(k)[..|At(k)| - 1] + [Tail(k)];
      this.(lists := lists[k := At(k)[..|At(k)| - 1]])
    }
    function ZAddDelayed(id: Id, score: int): Store { this.(delayed := delayed[id := score]) }
    function ZRemDelayed(id: Id): Store { this.(delayed := delayed - {id}) }
    function ZAddLease(id: Id, score: int): Store { this.(leases := leases[id := score]) }
    function ZRemLease(id: Id): Store { this.(leases := leases - {id}) }
    function SAddDlqAll(id: Id): Store { this.(dlqAll := dlqAll + {id}) }
    function SRemDlqAll(id: Id): Store { this.(dlqAll := dlqAll - {id}) }
  }

  const EMPTY_STORE := Store(map[], map[], map[], map[], {})
}
