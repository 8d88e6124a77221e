/** The in-memory store of `server/storage.ts`: three maps from integer ids
    to users, clothing items and outfits, each with its own auto-incrementing
    counter. Only create and get operations exist. The store is an immutable
    value here; each create returns the new store with the created record. */
module Storage {
  import opened Base

  datatype User = User(id: nat, username: string, password: string)
  datatype InsertUser = InsertUser(username: string, password: string)

  /** `confidence` is an integer column; absent and `null` are both `None`. */
  datatype ClothingItem = ClothingItem(
    id: nat, imageUrl: string, category: string,
    confidence: Option<int>, originalCategory: Option<string>)
  datatype InsertClothingItem = InsertClothingItem(
    imageUrl: string, category: string,
    confidence: Option<int>, originalCategory: Option<string>)

  datatype Outfit = Outfit(id: nat, itemIds: seq<string>, reasoningTags: seq<string>, description: string)
  datatype InsertOutfit = InsertOutfit(itemIds: seq<string>, reasoningTags: seq<string>, description: string)

  datatype MemStorage = MemStorage(
    users: map<nat, User>,
    clothingItems: map<nat, ClothingItem>,
    outfits: map<nat, Outfit>,
    currentUserId: nat,
    currentItemId: nat,
    currentOutfitId: nat)

  /** The ids handed out so far are exactly `1 .. next - 1`. */
  ghost predicate Dense<T>(m: map<nat, T>, next: nat) {
    next >= 1 && forall k :: k in m <==> 1 <= k < next
  }

  /** The representation invariant every reachable store satisfies: each map
      holds exactly the ids its counter has handed out, and every record
      carries the id it is stored under. Because ids are handed out in
      increasing order and never reused, a map's insertion order (the order
      in which JavaScript iterates it) is ascending id order. */
  ghost predicate Valid(st: MemStorage) {
    && Dense(st.users, st.currentUserId)
    && Dense(st.clothingItems, st.currentItemId)
    && Dense(st.outfits, st.currentOutfitId)
    && (forall k :: k in st.users ==> st.users[k].id == k)
    && (forall k :: k in st.clothingItems ==> st.clothingItems[k].id == k)
    && (forall k :: k in st.outfits ==> st.outfits[k].id == k)
  }

  /** `new MemStorage()`. */
  function Empty(): (st: MemStorage)
    ensures Valid(st)
    ensures st.users == map[] && st.clothingItems == map[] && st.outfits == map[]
    ensures st.currentUserId == 1 && st.currentItemId == 1 && st.currentOutfitId == 1
  {
    MemStorage(map[], map[], map[], 1, 1, 1)
  }

  /** `Map.get`: the record under `id`, or `undefined`. */
  function Lookup<T>(m: map<nat, T>, id: nat): (r: Option<T>)
    ensures r.Some? <==> id in m
    ensures r.Some? ==> r.value == m[id]
  {
    if id in m then Some(m[id]) else None
  }

  function GetUser(st: MemStorage, id: nat): Option<User> {
    Lookup(st.users, id)
  }

  function GetClothingItem(st: MemStorage, id: nat): Option<ClothingItem> {
    Lookup(st.clothingItems, id)
  }

  function GetOutfit(st: MemStorage, id: nat): Option<Outfit> {
    Lookup(st.outfits, id)
  }

  /** `createUser`: the record gets the current user counter as its id, the
      counter moves on by one, and nothing else in the store changes. */
  function CreateUser(st: MemStorage, u: InsertUser): (r: (MemStorage, User))
    ensures r.1.id == st.currentUserId
    ensures r.1.username == u.username && r.1.password == u.password
    ensures r.0.currentUserId == st.currentUserId + 1
    ensures GetUser(r.0, r.1.id) == Some(r.1)
    ensures forall k :: k != r.1.id ==> GetUser(r.0, k) == GetUser(st, k)
    ensures r.0.clothingItems == st.clothingItems && r.0.outfits == st.outfits
    ensures r.0.currentItemId == st.currentItemId && r.0.currentOutfitId == st.currentOutfitId
    ensures Valid(st) ==> Valid(r.0) && r.1.id !in st.users
    ensures Valid(st) ==> forall k :: k in st.users ==> k < r.1.id
  {
    var id := st.currentUserId;
    var user := User(id, u.username, u.password);
    (st.(users := st.users[id := user], currentUserId := id + 1), user)
  }

  /** JavaScript's `x || null` on an integer: 0 is falsy. */
  function TruthyInt(x: Option<int>): Option<int> {
    if x.Some? && x.value != 0 then x else None
  }

  /** JavaScript's `x || null` on a string: the empty string is falsy. */
  function TruthyString(x: Option<string>): Option<string> {
    if x.Some? && x.value != "" then x else None
  }

  /** `createClothingItem`: like `createUser`, and additionally a falsy
      confidence (absent, `null` or 0) and a falsy original category (absent,
      `null` or "") are both stored as `null`. */
  function CreateClothingItem(st: MemStorage, item: InsertClothingItem): (r: (MemStorage, ClothingItem))
    ensures r.1.id == st.currentItemId
    ensures r.1.imageUrl == item.imageUrl && r.1.category == item.category
    ensures r.1.confidence.None? <==> item.confidence.None? || item.confidence == Some(0)
    ensures r.1.confidence.Some? ==> r.1.confidence == item.confidence
    ensures r.1.originalCategory.None? <==> item.originalCategory.None? || item.originalCategory == Some("")
    ensures r.1.originalCategory.Some? ==> r.1.originalCategory == item.originalCategory
    ensures r.0.currentItemId == st.currentItemId + 1
    ensures GetClothingItem(r.0, r.1.id) == Some(r.1)
    ensures forall k :: k != r.1.id ==> GetClothingItem(r.0, k) == GetClothingItem(st, k)
    ensures r.0.users == st.users && r.0.outfits == st.outfits
    ensures r.0.currentUserId == st.currentUserId && r.0.currentOutfitId == st.currentOutfitId
    ensures Valid(st) ==> Valid(r.0) && r.1.id !in st.clothingItems
    ensures Valid(st) ==> forall k :: k in st.clothingItems ==> k < r.1.id
  {
    var id := st.currentItemId;
    var stored := ClothingItem(id, item.imageUrl, item.category,
                               TruthyInt(item.confidence), TruthyString(item.originalCategory));
    (st.(clothingItems := st.clothingItems[id := stored], currentItemId := id + 1), stored)
  }

  /** `createOutfit`: like `createUser`; the two arrays are copied, so the
      stored record has the same contents as the input. */
  function CreateOutfit(st: MemStorage, o: InsertOutfit): (r: (MemStorage, Outfit))
    ensures r.1.id == st.currentOutfitId
    ensures r.1.itemIds == o.itemIds && r.1.reasoningTags == o.reasoningTags
    ensures r.1.description == o.description
    ensures r.0.currentOutfitId == st.currentOutfitId + 1
    ensures GetOutfit(r.0, r.1.id) == Some(r.1)
    ensures forall k :: k != r.1.id ==> GetOutfit(r.0, k) == GetOutfit(st, k)
    ensures r.0.users == st.users && r.0.clothingItems == st.clothingItems
    ensures r.0.currentUserId == st.currentUserId && r.0.currentItemId == st.currentItemId
    ensures Valid(st) ==> Valid(r.0) && r.1.id !in st.outfits
    ensures Valid(st) ==> forall k :: k in st.outfits ==> k < r.1.id
  {
    var id := st.currentOutfitId;
    var stored := Outfit(id, o.itemIds[..], o.reasoningTags[..], o.description);
    (st.(outfits := st.outfits[id := stored], currentOutfitId := id + 1), stored)
  }

  /** `getUserByUsername`: the first user in insertion order (ascending id)
      whose username matches, or `undefined`. */
  method GetUserByUsername(st: MemStorage, username: string) returns (r: Option<User>)
    requires Valid(st)
    ensures r.Some? ==> r.value.id in st.users && st.users[r.value.id] == r.value
    ensures r.Some? ==> r.value.username == username
    ensures r.Some? ==> forall k :: k in st.users && k < r.value.id ==> st.users[k].username != username
    ensures r.None? <==> forall k :: k in st.users ==> st.users[k].username != username
  {
    var id := 1;
    while id < st.currentUserId
      invariant 1 <= id <= st.currentUserId
      invariant forall k :: k in st.users && k < id ==> st.users[k].username != username
    {
      if st.users[id].username == username {
        return Some(st.users[id]);
      }
      id := id + 1;
    }
    return None;
  }

  /** One call to one of the three create operations. */
  datatype Create =
    | NewUser(u: InsertUser)
    | NewClothingItem(item: InsertClothingItem)
    | NewOutfit(o: InsertOutfit)

  /** The store after a sequence of creates. */
  function Apply(st: MemStorage, c: Create): MemStorage {
    match c
    case NewUser(u) => CreateUser(st, u).0
    case NewClothingItem(item) => CreateClothingItem(st, item).0
    case NewOutfit(o) => CreateOutfit(st, o).0
  }

  function Replay(st: MemStorage, cs: seq<Create>): MemStorage
    decreases |cs|
  {
    if |cs| == 0 then st else Replay(Apply(st, cs[0]), cs[1..])
  }

  /** Every store reachable from `new MemStorage()` satisfies the invariant,
      so ids of each entity type are unique and handed out in increasing order. */
  lemma {:induction false} ReachableIsValid(st: MemStorage, cs: seq<Create>)
    requires Valid(st)
    ensures Valid(Replay(st, cs))
    decreases |cs|
  {
    if |cs| > 0 {
      ReachableIsValid(Apply(st, cs[0]), cs[1..]);
    }
  }

  /** Counters only ever grow: each create advances exactly its own counter. */
  lemma {:induction false} ReplayCounters(st: MemStorage, cs: seq<Create>)
    ensures Replay(st, cs).currentUserId >= st.currentUserId
    ensures Replay(st, cs).currentItemId >= st.currentItemId
    ensures Replay(st, cs).currentOutfitId >= st.currentOutfitId
    ensures Replay(st, cs).currentUserId + Replay(st, cs).currentItemId + Replay(st, cs).currentOutfitId
            == st.currentUserId + st.currentItemId + st.currentOutfitId + |cs|
    decreases |cs|
  {
    if |cs| > 0 {
      ReplayCounters(Apply(st, cs[0]), cs[1..]);
    }
  }

  /** Two users created one after the other get consecutive, increasing ids. */
  lemma UserIdsIncrease(st: MemStorage, a: InsertUser, b: InsertUser)
    ensures CreateUser(CreateUser(st, a).0, b).1.id == CreateUser(st, a).1.id + 1
  {
  }
}
