/**
 * Trade Talkies, the community chat: rooms holding channels holding
 * messages, the create-room wizard with its tag chips, channel creation,
 * joining and previewing rooms, and sending a message.
 */
module TradeTalkies {
  import opened Wrappers
  import opened Text
  import opened Seqs

  datatype Role = Owner | Admin | Moderator | Member

  datatype Message = Message(id: string, senderId: string, text: string, timestamp: string)

  datatype Channel = Channel(id: string, name: string, messages: seq<Message>)

  datatype Person = Person(id: string, name: string, role: Role)

  datatype Room = Room(
    id: string,
    name: string,
    icon: Option<string>,
    isPublic: bool,
    memberCount: int,
    role: Role,
    joined: bool,
    channels: seq<Channel>,
    members: seq<Person>,
    tags: Option<seq<string>>,
    ageLimit: Option<int>)

  // ----- badges and permissions -----

  /** Who a badge is for: a room role, or the system. */
  datatype Speaker = As(role: Role) | System

  /** `roleToBadge` */
  function RoleToBadge(s: Speaker): (b: string)
    ensures b == "System" <==> s == System
  {
    match s
    case As(Owner) => "Owner"
    case As(Admin) => "Admin"
    case As(Moderator) => "Moderator"
    case As(Member) => "Member"
    case System => "System"
  }

  /** Different speakers get different badges. */
  lemma BadgesDistinct(s: Speaker, t: Speaker)
    requires s != t
    ensures RoleToBadge(s) != RoleToBadge(t)
  {
  }

  /** Owners and admins manage the selected room. */
  predicate CanManage(room: Option<Room>) {
    room.Some? && room.value.role in {Owner, Admin}
  }

  /** Owners, admins and moderators moderate it. */
  predicate CanModerate(room: Option<Room>) {
    room.Some? && room.value.role in {Owner, Admin, Moderator}
  }

  /** Managing implies moderating, and moderators are the ones who only moderate. */
  lemma ManageImpliesModerate(room: Option<Room>)
    ensures CanManage(room) ==> CanModerate(room)
    ensures CanModerate(room) && !CanManage(room) <==> room.Some? && room.value.role == Moderator
    ensures room.None? ==> !CanModerate(room)
  {
  }

  function MemberIds(members: seq<Person>): (r: seq<string>)
    ensures |r| == |members| && forall i :: 0 <= i < |members| ==> r[i] == members[i].id
  {
    seq(|members|, i requires 0 <= i < |members| => members[i].id)
  }

  function LowerNames(members: seq<Person>): (r: seq<string>)
    ensures |r| == |members| && forall i :: 0 <= i < |members| ==> r[i] == Lower(members[i].name)
  {
    seq(|members|, i requires 0 <= i < |members| => Lower(members[i].name))
  }

  datatype SenderInfo = SenderInfo(name: string, badge: string)

  /** `getSenderInfo`: display name and badge of a message's sender. */
  function GetSenderInfo(m: Message, room: Option<Room>): (r: SenderInfo)
    ensures m.senderId == "system" ==> r == SenderInfo("System", "System")
    ensures m.senderId == "you" ==>
      r.badge == RoleToBadge(As(if room.Some? then room.value.role else Member))
    ensures m.senderId == "you" && (room.None? || "you" !in LowerNames(room.value.members)) ==> r.name == "You"
    ensures m.senderId == "you" && room.Some? && "you" in LowerNames(room.value.members) ==>
      r.name == room.value.members[IndexOf(LowerNames(room.value.members), "you")].name
    ensures m.senderId != "system" && m.senderId != "you" ==>
      if room.Some? && m.senderId in MemberIds(room.value.members) then
        var p := room.value.members[IndexOf(MemberIds(room.value.members), m.senderId)];
        r == SenderInfo(p.name, RoleToBadge(As(p.role)))
      else r == SenderInfo("User", "Member")
  {
    if m.senderId == "system" then SenderInfo("System", RoleToBadge(System))
    else if m.senderId == "you" then
      var badge := RoleToBadge(As(if room.Some? then room.value.role else Member));
      var i := if room.Some? then IndexOf(LowerNames(room.value.members), "you") else -1;
      SenderInfo(if i >= 0 then room.value.members[i].name else "You", badge)
    else
      var i := if room.Some? then IndexOf(MemberIds(room.value.members), m.senderId) else -1;
      if i >= 0 then SenderInfo(room.value.members[i].name, RoleToBadge(As(room.value.members[i].role)))
      else SenderInfo("User", RoleToBadge(As(Member)))
  }

  /** Only the system is ever badged System. */
  lemma SystemBadgeOnlyForSystem(m: Message, room: Option<Room>)
    ensures GetSenderInfo(m, room).badge == "System" <==> m.senderId == "system"
  {
  }

  // ----- discovery -----

  /** The discover grid: public rooms whose name contains the query, ignoring case. */
  predicate Discoverable(r: Room, query: string) {
    r.isPublic && Contains(Lower(r.name), Lower(query))
  }

  function Discover(rooms: seq<Room>, query: string): (r: seq<Room>)
    ensures IsSubseq(r, rooms)
    ensures forall x :: x in r <==> x in rooms && x.isPublic && exists i :: OccursAt(Lower(x.name), Lower(query), i)
    ensures forall x :: multiset(r)[x] == if Discoverable(x, query) then multiset(rooms)[x] else 0
  {
    var p := (x: Room) => Discoverable(x, query);
    FilterIsSubseq(rooms, p);
    Filter(rooms, p)
  }

  /** With an empty query every public room is shown. */
  lemma DiscoverAllPublic(rooms: seq<Room>, x: Room)
    requires x in rooms && x.isPublic
    ensures x in Discover(rooms, "")
  {
    ContainsEmpty(Lower(x.name));
  }

  // ----- tags -----

  /** A stored tag: non-empty, no white space at either end, no upper-case letter. */
  predicate NormalTag(t: string) {
    t != "" && !IsSpace(t[0]) && !IsSpace(t[|t| - 1]) && forall i :: 0 <= i < |t| ==> !IsUpper(t[i])
  }

  /** Lower-casing a trimmed string gives a stored tag, unless it is empty. */
  lemma LowerTrimmed(tr: string)
    requires tr != "" ==> !IsSpace(tr[0]) && !IsSpace(tr[|tr| - 1])
    ensures Lower(tr) == "" <==> tr == ""
    ensures tr != "" ==> NormalTag(Lower(tr))
  {
    var t := Lower(tr);
    if tr != "" {
      assert t[0] == LowerChar(tr[0]);
      assert t[|t| - 1] == LowerChar(tr[|tr| - 1]);
    }
  }

  /** `raw.trim().toLowerCase()` */
  function Normalize(raw: string): (t: string)
    ensures t == "" <==> IsBlank(raw)
    ensures t != "" ==> NormalTag(t)
  {
    var tr := Trim(raw);
    LowerTrimmed(tr);
    Lower(tr)
  }

  /** Normalising a stored tag gives it back. */
  lemma NormalizeIdempotent(raw: string)
    ensures Normalize(Normalize(raw)) == Normalize(raw)
  {
    NormalIsFixed(Normalize(raw));
  }

  /** A stored tag, or the empty string, normalises to itself. */
  lemma NormalIsFixed(t: string)
    requires t == "" || NormalTag(t)
    ensures Normalize(t) == t
  {
    TrimTrimmed(t);
    forall i | 0 <= i < |t| ensures Lower(t)[i] == t[i] {
      assert !IsUpper(t[i]);
    }
  }

  /** The tags stored by the wizard: each normal, none twice. */
  predicate TagList(tags: seq<string>) {
    NoDup(tags) && forall i :: 0 <= i < |tags| ==> NormalTag(tags[i])
  }

  lemma SameTags(a: seq<string>, b: seq<string>)
    requires TagList(a) && a == b
    ensures TagList(b)
  {
  }

  /** Adding a new normal tag keeps the list a tag list. */
  lemma AppendTag(tags: seq<string>, t: string)
    requires TagList(tags) && NormalTag(t) && t !in tags
    ensures TagList(tags + [t])
  {
    var r := tags + [t];
    forall i, j | 0 <= i < j < |r| ensures r[i] != r[j] {
      if j == |tags| {
        assert r[i] in tags;
      }
    }
  }

  function NormalizeAll(parts: seq<string>): (r: seq<string>)
    ensures |r| == |parts| && forall i :: 0 <= i < |parts| ==> r[i] == Normalize(parts[i])
  {
    seq(|parts|, i requires 0 <= i < |parts| => Normalize(parts[i]))
  }

  /** Normalising never introduces a comma. */
  lemma NormalizeKeepsOutComma(part: string)
    requires ',' !in part
    ensures ',' !in Normalize(part)
  {
    var tr := Trim(part);
    TrimIsInfix(part);
    var o :| OccursAt(part, tr, o);
    forall j | 0 <= j < |tr| ensures tr[j] != ',' {
      assert tr[j] == part[o + j];
    }
    forall j | 0 <= j < |tr| ensures Lower(tr)[j] != ',' {
      assert Lower(tr)[j] == LowerChar(tr[j]);
    }
  }

  /** Tags typed as text: split at commas, trimmed, lower-cased, empty parts dropped. */
  function ParseTags(text: string): (r: seq<string>)
    ensures forall t :: t in r ==> NormalTag(t) && ',' !in t
    ensures forall t :: t in r <==> t != "" && exists k :: 0 <= k < |Split(text, ',')| && Normalize(Split(text, ',')[k]) == t
    ensures IsSubseq(r, NormalizeAll(Split(text, ',')))
    ensures forall t :: multiset(r)[t] == if t == "" then 0 else multiset(NormalizeAll(Split(text, ',')))[t]
  {
    var parts := Split(text, ',');
    var tags := NormalizeAll(parts);
    PartsAreTags(parts);
    NormalizedParts(parts);
    var nonEmpty := (t: string) => |t| > 0;
    assert forall t :: nonEmpty(t) <==> t != "";
    FilterIsSubseq(tags, nonEmpty);
    Filter(tags, nonEmpty)
  }

  /** A string is among the normalised parts exactly when some part normalises to it. */
  lemma NormalizedParts(parts: seq<string>)
    ensures forall t :: t in NormalizeAll(parts) <==> exists k :: 0 <= k < |parts| && Normalize(parts[k]) == t
  {
    var tags := NormalizeAll(parts);
    forall t | t in tags ensures exists k :: 0 <= k < |parts| && Normalize(parts[k]) == t {
      var k :| 0 <= k < |tags| && tags[k] == t;
      assert Normalize(parts[k]) == t;
    }
  }

  /** Tags written out with commas between them are read back as the same tags in the same order. */
  lemma {:induction false} ParseJoinedTags(tags: seq<string>)
    requires forall i :: 0 <= i < |tags| ==> NormalTag(tags[i]) && ',' !in tags[i]
    ensures ParseTags(Join(tags, ',')) == tags
  {
    var parts := Split(Join(tags, ','), ',');
    if tags == [] {
      assert parts == [""];
      assert NormalizeAll(parts) == [""];
      assert Filter([""], (t: string) => |t| > 0) == [];
    } else {
      SplitJoin(tags, ',');
      assert parts == tags;
      NormalizeStored(tags);
      FilterKeepsAll(tags, (t: string) => |t| > 0);
    }
  }

  /** Stored tags normalise to themselves. */
  lemma NormalizeStored(tags: seq<string>)
    requires forall i :: 0 <= i < |tags| ==> NormalTag(tags[i])
    ensures NormalizeAll(tags) == tags
  {
    forall i | 0 <= i < |tags| ensures Normalize(tags[i]) == tags[i] {
      NormalIsFixed(tags[i]);
    }
  }

  /** The non-empty normalised parts of comma-free parts are comma-free tags. */
  lemma PartsAreTags(parts: seq<string>)
    requires forall k :: 0 <= k < |parts| ==> ',' !in parts[k]
    ensures forall t :: t in Filter(NormalizeAll(parts), (t: string) => |t| > 0) ==> NormalTag(t) && ',' !in t
  {
    var tags := NormalizeAll(parts);
    forall t | t in Filter(tags, (t: string) => |t| > 0) ensures NormalTag(t) && ',' !in t {
      var k :| 0 <= k < |tags| && tags[k] == t;
      NormalizeKeepsOutComma(parts[k]);
    }
  }

  // ----- rooms, channels, messages -----

  function RoomIds(rooms: seq<Room>): (r: seq<string>)
    ensures |r| == |rooms| && forall i :: 0 <= i < |rooms| ==> r[i] == rooms[i].id
  {
    seq(|rooms|, i requires 0 <= i < |rooms| => rooms[i].id)
  }

  function ChannelIds(channels: seq<Channel>): (r: seq<string>)
    ensures |r| == |channels| && forall i :: 0 <= i < |channels| ==> r[i] == channels[i].id
  {
    seq(|channels|, i requires 0 <= i < |channels| => channels[i].id)
  }

  /** `rooms.find(r => r.id === id) || null` */
  function FindRoom(rooms: seq<Room>, id: string): (r: Option<Room>)
    ensures r.None? <==> id !in RoomIds(rooms)
    ensures r.Some? ==> r.value == rooms[IndexOf(RoomIds(rooms), id)] && r.value.id == id
  {
    var i := IndexOf(RoomIds(rooms), id);
    if i < 0 then None else Some(rooms[i])
  }

  /** `room.channels.find(c => c.id === id) || null` */
  function FindChannel(room: Option<Room>, id: string): (c: Option<Channel>)
    ensures c.None? <==> room.None? || id !in ChannelIds(room.value.channels)
    ensures c.Some? ==> c.value.id == id && c.value in room.value.channels
  {
    if room.None? then None
    else
      var i := IndexOf(ChannelIds(room.value.channels), id);
      if i < 0 then None else Some(room.value.channels[i])
  }

  /** A room put on top is the one found under its id, and so is its first channel. */
  lemma FindOnTop(r: Room, rooms: seq<Room>)
    requires |r.channels| > 0
    ensures FindRoom([r] + rooms, r.id) == Some(r)
    ensures FindChannel(Some(r), r.channels[0].id) == Some(r.channels[0])
  {
    assert RoomIds([r] + rooms)[0] == r.id;
    assert ChannelIds(r.channels)[0] == r.channels[0].id;
  }

  /** The room the wizard creates. */
  function NewRoom(name: string, tagList: seq<string>, tagText: string, isPublic: bool,
                   ageGate: bool, ageLimit: int, roomStamp: string, chanStamp: string): (r: Room)
    ensures r.id == "room-" + roomStamp && r.name == name && r.isPublic == isPublic
    ensures r.memberCount == 1 && r.role == Owner && r.joined
    ensures |r.channels| == 1 && r.channels[0] == Channel("chan-" + chanStamp, "general", [])
    ensures r.members == [Person("you", "You", Owner)]
    ensures |tagList| > 0 ==> r.tags == Some(tagList)
    ensures |tagList| == 0 ==> r.tags == if |ParseTags(tagText)| > 0 then Some(ParseTags(tagText)) else None
    ensures r.ageLimit == if ageGate then Some(ageLimit) else None
  {
    var tags := if |tagList| > 0 then tagList else ParseTags(tagText);
    Room("room-" + roomStamp, name, None, isPublic, 1, Owner, true,
         [Channel("chan-" + chanStamp, "general", [])],
         [Person("you", "You", Owner)],
         if |tags| > 0 then Some(tags) else None,
         if ageGate then Some(ageLimit) else None)
  }

  /** Add a channel to the room with the given id; the other rooms are untouched. */
  function AddChannel(rooms: seq<Room>, roomId: string, ch: Channel): (r: seq<Room>)
    ensures |r| == |rooms| && RoomIds(r) == RoomIds(rooms)
    ensures forall i :: 0 <= i < |rooms| ==>
      r[i] == if rooms[i].id == roomId then rooms[i].(channels := rooms[i].channels + [ch]) else rooms[i]
  {
    seq(|rooms|, i requires 0 <= i < |rooms| =>
      if rooms[i].id == roomId then rooms[i].(channels := rooms[i].channels + [ch]) else rooms[i])
  }

  /** The joined room counts one member more; the others are untouched. */
  function MarkJoined(rooms: seq<Room>, roomId: string): (r: seq<Room>)
    ensures |r| == |rooms| && RoomIds(r) == RoomIds(rooms)
    ensures forall i :: 0 <= i < |rooms| ==>
      r[i] == if rooms[i].id == roomId
              then rooms[i].(memberCount := rooms[i].memberCount + 1, joined := true)
              else rooms[i]
  {
    seq(|rooms|, i requires 0 <= i < |rooms| =>
      if rooms[i].id == roomId then rooms[i].(memberCount := rooms[i].memberCount + 1, joined := true)
      else rooms[i])
  }

  /** There is no guard against joining again: two joins count two members. */
  lemma JoinTwiceCountsTwice(rooms: seq<Room>, roomId: string, i: nat)
    requires i < |rooms| && rooms[i].id == roomId
    ensures MarkJoined(MarkJoined(rooms, roomId), roomId)[i].memberCount == rooms[i].memberCount + 2
    ensures MarkJoined(rooms, roomId)[i].joined
  {
  }

  /** Append a message to one channel of one room. */
  function PostInChannels(channels: seq<Channel>, channelId: string, m: Message): (r: seq<Channel>)
    ensures |r| == |channels| && ChannelIds(r) == ChannelIds(channels)
    ensures forall j :: 0 <= j < |channels| ==>
      r[j] == if channels[j].id == channelId then channels[j].(messages := channels[j].messages + [m]) else channels[j]
  {
    seq(|channels|, j requires 0 <= j < |channels| =>
      if channels[j].id == channelId then channels[j].(messages := channels[j].messages + [m]) else channels[j])
  }

  function Post(rooms: seq<Room>, roomId: string, channelId: string, m: Message): (r: seq<Room>)
    ensures |r| == |rooms| && RoomIds(r) == RoomIds(rooms)
    ensures forall i :: 0 <= i < |rooms| ==>
      r[i] == if rooms[i].id == roomId
              then rooms[i].(channels := PostInChannels(rooms[i].channels, channelId, m))
              else rooms[i]
  {
    seq(|rooms|, i requires 0 <= i < |rooms| =>
      if rooms[i].id == roomId then rooms[i].(channels := PostInChannels(rooms[i].channels, channelId, m))
      else rooms[i])
  }

  /** A post leaves every message where it was and puts the new one last in the chosen channel only. */
  lemma PostAppendsOnce(rooms: seq<Room>, roomId: string, channelId: string, m: Message, i: nat, j: nat)
    requires i < |rooms| && j < |rooms[i].channels|
    ensures var before := rooms[i].channels[j].messages;
      var after := Post(rooms, roomId, channelId, m)[i].channels[j].messages;
      if rooms[i].id == roomId && rooms[i].channels[j].id == channelId
      then after == before + [m] && after[|after| - 1] == m
      else after == before
  {
  }

  const InitialRooms: seq<Room> := [
    Room("room-1", "Indian Markets", Some("/icons/india.png"), true, 128, Owner, true,
      [Channel("chan-1", "announcements", [Message("m1", "system", "Welcome to Indian Markets room!", "")]),
       Channel("chan-2", "general", []),
       Channel("chan-3", "stock-hdfc", [])],
      [Person("u1", "You", Owner), Person("u2", "Savvy Investor", Moderator)], None, None),
    Room("room-2", "Global Tech", Some("/icons/tech.png"), true, 56, Member, true,
      [Channel("chan-4", "news", []), Channel("chan-5", "earnings", [])],
      [Person("u3", "Tech Guru", Admin), Person("u4", "You", Member)], None, None)]

  /** In the seed rooms, your own messages carry your role and the welcome message is badged System. */
  lemma SeedSenders()
    ensures GetSenderInfo(Message("x", "you", "hi", ""), Some(InitialRooms[0])) == SenderInfo("You", "Owner")
    ensures GetSenderInfo(Message("x", "u3", "hi", ""), Some(InitialRooms[1])) == SenderInfo("Tech Guru", "Admin")
    ensures GetSenderInfo(InitialRooms[0].channels[0].messages[0], Some(InitialRooms[0])) == SenderInfo("System", "System")
  {
    var ns := LowerNames(InitialRooms[0].members);
    assert ns[0] == Lower("You");
    assert Lower("You") == "you";
    assert MemberIds(InitialRooms[1].members)[0] == "u3";
  }

  datatype Tab = Discover | MyRooms

  /**
   * The create-room wizard's eight pieces of state, kept together: the dialog's open flag, the step
   * (1 to 4), the name, the tag text box, the chips, the age gate and its limit, and public or private.
   */
  datatype Wizard = Wizard(
    createRoomOpen: bool,
    createRoomStep: int,
    roomName: string,
    roomTags: string,
    roomTagList: seq<string>,
    ageGateEnabled: bool,
    ageLimit: int,
    isPublic: bool)

  /** The wizard closed and at its defaults: step 1, nothing typed, no chips, no age gate, limit 18, public. */
  const DefaultWizard: Wizard := Wizard(false, 1, "", "", [], false, 18, true)

  /** Every field of the page's state at one moment. */
  datatype View = View(
    tab: Tab,
    rooms: seq<Room>,
    selectedRoomId: string,
    selectedChannelId: string,
    wizard: Wizard,
    createChannelOpen: bool,
    channelName: string,
    previewActive: bool)

  /** The state of a fresh page: the seed rooms, the first one and its first channel selected, the wizard at its defaults. */
  const InitialView: View := View(MyRooms, InitialRooms, "room-1", "chan-1", DefaultWizard, false, "", false)

  /** The chip list once `t` is added to it: unchanged when `t` is already a chip, otherwise `t` goes last. */
  function WithTag(tags: seq<string>, t: string): seq<string> {
    if t in tags then tags else tags + [t]
  }

  class TradeTalkiesState {
    var tab: Tab
    var rooms: seq<Room>
    var selectedRoomId: string
    var selectedChannelId: string
    var wizard: Wizard
    var createChannelOpen: bool
    var channelName: string
    var previewActive: bool

    /** The wizard is on one of its four steps and the chip list holds distinct normal tags. */
    predicate Valid()
      reads this
    {
      1 <= wizard.createRoomStep <= 4 && TagList(wizard.roomTagList)
    }

    /** All fields at once. */
    function Snapshot(): View
      reads this
    {
      View(tab, rooms, selectedRoomId, selectedChannelId, wizard, createChannelOpen, channelName, previewActive)
    }

    constructor()
      ensures Snapshot() == InitialView
      ensures Valid()
    {
      tab := MyRooms;
      rooms := InitialRooms;
      selectedRoomId := "room-1";
      selectedChannelId := "chan-1";
      wizard := DefaultWizard;
      createChannelOpen := false;
      channelName := "";
      previewActive := false;
    }

    function SelectedRoom(): Option<Room>
      reads this
    {
      FindRoom(rooms, selectedRoomId)
    }

    function SelectedChannel(): Option<Channel>
      reads this
    {
      FindChannel(SelectedRoom(), selectedChannelId)
    }

    predicate IsJoined()
      reads this
    {
      SelectedRoom().Some? && SelectedRoom().value.joined
    }

    /** Sending is possible with a room and channel selected, unless previewing a room not joined. */
    predicate CanSend()
      reads this
    {
      SelectedRoom().Some? && SelectedChannel().Some? && !(previewActive && !IsJoined())
    }

    /** `addTag`: store the normalised tag once and clear the text box; blank input changes nothing. */
    method AddTag(raw: string)
      modifies this
      requires Valid()
      ensures IsBlank(raw) ==> Snapshot() == old(Snapshot())
      ensures !IsBlank(raw) ==>
        Snapshot() == old(Snapshot()).(wizard := old(wizard).(roomTags := "",
          roomTagList := WithTag(old(wizard.roomTagList), Normalize(raw))))
      ensures Valid()
    {
      var t := Normalize(raw);
      if t == "" {
        return;
      }
      Chip(t);
    }

    /** Store a normal tag unless it is already a chip, and clear the text box. */
    method Chip(t: string)
      modifies this
      requires Valid() && NormalTag(t)
      ensures Snapshot() == old(Snapshot()).(wizard := old(wizard).(roomTags := "",
        roomTagList := WithTag(old(wizard.roomTagList), t)))
      ensures Valid()
    {
      var tags := wizard.roomTagList;
      if t !in tags {
        AppendTag(tags, t);
        tags := tags + [t];
      }
      wizard := wizard.(roomTags := "", roomTagList := tags);
    }

    /** `removeTag`: drop that tag, keeping the others in order. */
    method RemoveTag(tag: string)
      modifies this
      requires Valid()
      ensures Snapshot() == old(Snapshot()).(wizard := old(wizard).(roomTagList := Without(old(wizard.roomTagList), tag)))
      ensures Valid()
    {
      var kept := Without(wizard.roomTagList, tag);
      SubseqNoDup(kept, wizard.roomTagList);
      forall i | 0 <= i < |kept| ensures NormalTag(kept[i]) {
        assert kept[i] in wizard.roomTagList;
      }
      wizard := wizard.(roomTagList := kept);
      SameTags(kept, wizard.roomTagList);
    }

    /** Removing a chip just added restores the list it was added to; only the text box is cleared. */
    method AddThenRemove(raw: string)
      modifies this
      requires Valid() && !IsBlank(raw) && Normalize(raw) !in wizard.roomTagList
      ensures Snapshot() == old(Snapshot()).(wizard := old(wizard).(roomTags := ""))
      ensures Valid()
    {
      AddTag(raw);
      WithoutAppended(old(wizard.roomTagList), Normalize(raw));
      RemoveTag(Normalize(raw));
    }

    /**
     * `createRoom`: a room with a non-blank name goes on top and is selected; the wizard is reset.
     * The room's and its channel's ids come from two separate reads of the clock.
     */
    method CreateRoom(roomStamp: string, chanStamp: string)
      modifies this
      requires Valid()
      ensures IsBlank(old(wizard.roomName)) ==> Snapshot() == old(Snapshot())
      ensures !IsBlank(old(wizard.roomName)) ==>
        var w := old(wizard);
        var r := NewRoom(Trim(w.roomName), w.roomTagList, w.roomTags, w.isPublic,
                         w.ageGateEnabled, w.ageLimit, roomStamp, chanStamp);
        Snapshot() == old(Snapshot()).(wizard := DefaultWizard, rooms := [r] + old(rooms),
                        selectedRoomId := r.id, selectedChannelId := r.channels[0].id)
        && SelectedRoom() == Some(r) && SelectedChannel() == Some(r.channels[0])
      ensures Valid()
    {
      var name := Trim(wizard.roomName);
      if name == "" {
        return;
      }
      var w := wizard;
      var r := NewRoom(name, w.roomTagList, w.roomTags, w.isPublic, w.ageGateEnabled, w.ageLimit, roomStamp, chanStamp);
      Install(r);
    }

    /** Put a new room on top, select it and its first channel, and reset the wizard. */
    method Install(r: Room)
      modifies this
      requires |r.channels| > 0
      ensures Snapshot() == old(Snapshot()).(wizard := DefaultWizard, rooms := [r] + old(rooms),
                              selectedRoomId := r.id, selectedChannelId := r.channels[0].id)
      ensures SelectedRoom() == Some(r) && SelectedChannel() == Some(r.channels[0])
      ensures Valid()
    {
      ResetWizard();
      FindOnTop(r, rooms);
      rooms := [r] + rooms;
      selectedRoomId := r.id;
      selectedChannelId := r.channels[0].id;
    }

    /** Close the create-room dialog and put every wizard field back to its default. */
    method ResetWizard()
      modifies this
      ensures Snapshot() == old(Snapshot()).(wizard := DefaultWizard)
      ensures Valid()
    {
      wizard := DefaultWizard;
    }

    /** `createChannel`: a non-blank channel is added to the selected room only, selected, and the dialog closed. */
    method CreateChannel(stamp: string)
      modifies this
      requires Valid()
      ensures old(SelectedRoom()) == None || IsBlank(old(channelName)) ==> Snapshot() == old(Snapshot())
      ensures old(SelectedRoom()).Some? && !IsBlank(old(channelName)) ==>
        var ch := Channel("chan-" + stamp, Trim(old(channelName)), []);
        Snapshot() == old(Snapshot()).(rooms := AddChannel(old(rooms), old(selectedRoomId), ch),
                        selectedChannelId := ch.id, createChannelOpen := false, channelName := "")
      ensures Valid()
    {
      var room := SelectedRoom();
      if room.None? {
        return;
      }
      var name := Trim(channelName);
      if name == "" {
        return;
      }
      Open(Channel("chan-" + stamp, name, []));
    }

    /** Add a channel to the selected room, select it and close the dialog. */
    method Open(ch: Channel)
      modifies this
      requires Valid()
      ensures Snapshot() == old(Snapshot()).(rooms := AddChannel(old(rooms), old(selectedRoomId), ch),
                              selectedChannelId := ch.id, createChannelOpen := false, channelName := "")
      ensures Valid()
    {
      rooms := AddChannel(rooms, selectedRoomId, ch);
      selectedChannelId := ch.id;
      createChannelOpen := false;
      channelName := "";
    }

    /** `joinRoom`: one more member and joined, with no guard against joining twice; the room is selected and the preview ends. */
    method JoinRoom(roomId: string)
      modifies this
      requires Valid()
      ensures Snapshot() == old(Snapshot()).(rooms := MarkJoined(old(rooms), roomId),
                              selectedRoomId := roomId, tab := MyRooms, previewActive := false)
      ensures Valid()
    {
      rooms := MarkJoined(rooms, roomId);
      selectedRoomId := roomId;
      tab := MyRooms;
      previewActive := false;
    }

    /** `openPreview`: show a known room on its first channel; preview is on when not joined. An unknown room changes nothing. */
    method OpenPreview(roomId: string)
      modifies this
      requires Valid()
      ensures FindRoom(old(rooms), roomId).None? ==> Snapshot() == old(Snapshot())
      ensures FindRoom(old(rooms), roomId).Some? ==>
        var r := FindRoom(old(rooms), roomId).value;
        Snapshot() == old(Snapshot()).(selectedRoomId := roomId, tab := MyRooms, previewActive := !r.joined,
          selectedChannelId := if |r.channels| > 0 then r.channels[0].id else old(selectedChannelId))
      ensures Valid()
    {
      var room := FindRoom(rooms, roomId);
      if room.None? {
        return;
      }
      selectedRoomId := roomId;
      selectedChannelId := if |room.value.channels| > 0 then room.value.channels[0].id else selectedChannelId;
      tab := MyRooms;
      previewActive := !room.value.joined;
    }

    /** The tab strip's `onValueChange` and the sidebars' Discover button: the tab changes and nothing else. */
    method SetTab(t: Tab)
      modifies this
      requires Valid()
      ensures Snapshot() == old(Snapshot()).(tab := t)
      ensures Valid()
    {
      tab := t;
    }

    /**
     * The sidebars' `onSelectRoom`: switch to My Rooms and select the room. Its first channel is
     * selected only when the room is known and has a first channel with a non-empty id; otherwise
     * the channel selection stays. The preview flag is left as it is.
     */
    method SelectRoom(roomId: string)
      modifies this
      requires Valid()
      ensures var r := FindRoom(old(rooms), roomId);
        var first := r.Some? && |r.value.channels| > 0 && r.value.channels[0].id != "";
        Snapshot() == old(Snapshot()).(tab := MyRooms, selectedRoomId := roomId,
          selectedChannelId := if first then r.value.channels[0].id else old(selectedChannelId))
        && (first ==> SelectedRoom() == r && SelectedChannel() == Some(r.value.channels[0]))
      ensures Valid()
    {
      var room := FindRoom(rooms, roomId);
      tab := MyRooms;
      selectedRoomId := roomId;
      if room.Some? && |room.value.channels| > 0 && room.value.channels[0].id != "" {
        FindOnTop(room.value, []);
        selectedChannelId := room.value.channels[0].id;
      }
    }

    /** A click on a channel in the channel list selects it and nothing else. */
    method SelectChannel(channelId: string)
      modifies this
      requires Valid()
      ensures Snapshot() == old(Snapshot()).(selectedChannelId := channelId)
      ensures Valid()
    {
      selectedChannelId := channelId;
    }

    /** The mobile sheet's `onSelectChannel`: select the channel and switch to My Rooms. */
    method SheetSelectChannel(channelId: string)
      modifies this
      requires Valid()
      ensures Snapshot() == old(Snapshot()).(selectedChannelId := channelId, tab := MyRooms)
      ensures Valid()
    {
      selectedChannelId := channelId;
      tab := MyRooms;
    }

    /** The create-channel button and the channel dialog's `onOpenChange` and Cancel. */
    method SetCreateChannelOpen(open: bool)
      modifies this
      requires Valid()
      ensures Snapshot() == old(Snapshot()).(createChannelOpen := open)
      ensures Valid()
    {
      createChannelOpen := open;
    }

    /** The channel name box's `onChange`. */
    method SetChannelName(name: string)
      modifies this
      requires Valid()
      ensures Snapshot() == old(Snapshot()).(channelName := name)
      ensures Valid()
    {
      channelName := name;
    }

    /** The chat bar's `onSubmit`: a non-blank message goes last in the selected channel of the selected room; nothing else changes. */
    method SubmitMessage(text: string, stamp: string, timestamp: string)
      modifies this
      requires Valid()
      ensures !old(CanSend()) || IsBlank(text) ==> Snapshot() == old(Snapshot())
      ensures old(CanSend()) && !IsBlank(text) ==>
        Snapshot() == old(Snapshot()).(rooms := Post(old(rooms), old(selectedRoomId), old(selectedChannelId),
                                                      Message(stamp, "you", Trim(text), timestamp)))
      ensures Valid()
    {
      var room, channel := SelectedRoom(), SelectedChannel();
      if room.None? || channel.None? {
        return;
      }
      if previewActive && !room.value.joined {
        return;
      }
      var trimmed := Trim(text);
      if trimmed == "" {
        return;
      }
      Deliver(Message(stamp, "you", trimmed, timestamp));
    }

    /** Append a message to the selected channel of the selected room. */
    method Deliver(m: Message)
      modifies this
      requires Valid()
      ensures Snapshot() == old(Snapshot()).(rooms := Post(old(rooms), old(selectedRoomId), old(selectedChannelId), m))
      ensures Valid()
    {
      rooms := Post(rooms, selectedRoomId, selectedChannelId, m);
    }

    /**
     * The create-room dialog's own `onOpenChange`: when the dialog itself reports open, the wizard
     * restarts at step 1; when it reports closed, only the open flag changes.
     */
    method SetCreateRoomOpen(open: bool)
      modifies this
      requires Valid()
      ensures Snapshot() == old(Snapshot()).(wizard := old(wizard).(createRoomOpen := open,
                              createRoomStep := if open then 1 else old(wizard.createRoomStep)))
      ensures Valid()
    {
      wizard := wizard.(createRoomOpen := open, createRoomStep := if open then 1 else wizard.createRoomStep);
    }

    /**
     * `setCreateRoomOpen` called directly: the sidebars' create-room button opens the dialog and Cancel
     * closes it. Neither touches the step or any other wizard field.
     */
    method SetRoomDialog(open: bool)
      modifies this
      requires Valid()
      ensures Snapshot() == old(Snapshot()).(wizard := old(wizard).(createRoomOpen := open))
      ensures Valid()
    {
      wizard := wizard.(createRoomOpen := open);
    }

    /** The name box's `onChange`. */
    method SetRoomName(name: string)
      modifies this
      requires Valid()
      ensures Snapshot() == old(Snapshot()).(wizard := old(wizard).(roomName := name))
      ensures Valid()
    {
      wizard := wizard.(roomName := name);
    }

    /** The tag box's `onChange`: only the text changes; chips are added by `addTag`. */
    method SetRoomTags(text: string)
      modifies this
      requires Valid()
      ensures Snapshot() == old(Snapshot()).(wizard := old(wizard).(roomTags := text))
      ensures Valid()
    {
      wizard := wizard.(roomTags := text);
    }

    /** The age-gate switch. */
    method SetAgeGateEnabled(enabled: bool)
      modifies this
      requires Valid()
      ensures Snapshot() == old(Snapshot()).(wizard := old(wizard).(ageGateEnabled := enabled))
      ensures Valid()
    {
      wizard := wizard.(ageGateEnabled := enabled);
    }

    /** The age box's `onChange`, given the number it parsed. */
    method SetAgeLimit(limit: int)
      modifies this
      requires Valid()
      ensures Snapshot() == old(Snapshot()).(wizard := old(wizard).(ageLimit := limit))
      ensures Valid()
    {
      wizard := wizard.(ageLimit := limit);
    }

    /** The privacy radio group: public or private. */
    method SetPublic(isPublic: bool)
      modifies this
      requires Valid()
      ensures Snapshot() == old(Snapshot()).(wizard := old(wizard).(isPublic := isPublic))
      ensures Valid()
    {
      wizard := wizard.(isPublic := isPublic);
    }

    /** Back: one step down, never below 1. */
    method Back()
      modifies this
      requires Valid()
      ensures var step := old(wizard.createRoomStep);
        Snapshot() == old(Snapshot()).(wizard := old(wizard).(createRoomStep := if step > 1 then step - 1 else 1))
      ensures Valid()
    {
      var step := wizard.createRoomStep;
      wizard := wizard.(createRoomStep := if step - 1 > 1 then step - 1 else 1);
    }

    /** Next is disabled on step 1 while the name is blank. */
    predicate NextEnabled()
      reads this
    {
      !(wizard.createRoomStep == 1 && |Trim(wizard.roomName)| == 0)
    }

    /** Next: one step up, never above 4; a click on the disabled button changes nothing. */
    method Next()
      modifies this
      requires Valid()
      ensures var step := old(wizard.createRoomStep);
        old(NextEnabled()) ==>
          Snapshot() == old(Snapshot()).(wizard := old(wizard).(createRoomStep := if step < 4 then step + 1 else 4))
      ensures !old(NextEnabled()) ==> Snapshot() == old(Snapshot())
      ensures wizard.createRoomStep > 1 ==> !IsBlank(wizard.roomName) || old(wizard.createRoomStep) > 1
      ensures Valid()
    {
      if !NextEnabled() {
        return;
      }
      var step := wizard.createRoomStep;
      wizard := wizard.(createRoomStep := if step + 1 < 4 then step + 1 else 4);
    }
  }

  /**
   * Type a name, press Next, press Cancel, then reopen from the sidebar: the wizard is open again on
   * step 2 with the name kept, because only the dialog's own `onOpenChange` restarts the step.
   */
  method ReopenKeepsProgress() returns (s: TradeTalkiesState)
    ensures s.wizard.createRoomOpen && s.wizard.createRoomStep == 2 && s.wizard.roomName == "Desk"
  {
    s := new TradeTalkiesState();
    s.SetRoomDialog(true);
    s.SetRoomName("Desk");
    assert !IsSpace("Desk"[0]);
    s.Next();
    s.SetRoomDialog(false);
    s.SetRoomDialog(true);
  }
}
