/**
 * The records of backend/src/app/datamodel.ts: the user and entry documents
 * and the HAL response objects. Every class keeps private fields that its
 * constructor assigns and its setters overwrite one at a time; here each is a
 * class with those fields, a getter function per property, a setter method
 * per property whose modifies frame is the one field it writes, and a
 * constructor that states the documented defaults.
 */
module DataModel {

  datatype Option<T> = None | Some(value: T)

  /** Access levels of a user (UserAccess), an ordered numeric enumeration. */
  datatype UserAccess = Usual | High | Administrator {
    /** The numeric value of the enumeration member. */
    function Value(): nat {
      match this
      case Usual => 0
      case High => 5
      case Administrator => 999
    }
  }

  /** USUAL = 0 < HIGH = 5 < ADMINISTRATOR = 999, and no two levels share a value. */
  lemma AccessOrder()
    ensures Usual.Value() == 0 && High.Value() == 5 && Administrator.Value() == 999
    ensures Usual.Value() < High.Value() < Administrator.Value()
    ensures forall a: UserAccess, b: UserAccess :: a.Value() == b.Value() ==> a == b
  {
  }

  // The response states of HAL_EMBEDDED_STATE.
  const StateOk: string := "OK"
  const StateNg: string := "NG"

  /** A response state is one of HAL_EMBEDDED_STATE's values. */
  predicate IsResponseState(s: string) {
    s == StateOk || s == StateNg
  }

  lemma ResponseStates(s: string)
    ensures IsResponseState(s) <==> s in {"OK", "NG"}
    ensures !IsResponseState("")
  {
  }

  /** A JavaScript Date, as its time value in milliseconds. */
  type Date = int

  /** One entry ("choikini"): its registration date and its text. */
  class ChoikiniEntity {
    var date: Option<Date>
    var choikini: Option<string>

    function EntryDate(): Option<Date> reads this { date }
    function Entry(): Option<string> reads this { choikini }

    /** The constructor assigns nothing, so both properties start undefined. */
    constructor ()
      ensures EntryDate() == None && Entry() == None
    {
      date := None;
      choikini := None;
    }

    method SetEntryDate(d: Date)
      modifies this`date
      ensures EntryDate() == Some(d)
      ensures Entry() == old(Entry())
    {
      date := Some(d);
    }

    method SetEntry(text: string)
      modifies this`choikini
      ensures Entry() == Some(text)
      ensures EntryDate() == old(EntryDate())
    {
      choikini := Some(text);
    }
  }

  /** The list of a user's entries, a document with its own id. */
  class ChoikiniList {
    var id: string
    var choikinis: seq<ChoikiniEntity>

    function Id(): string reads this { id }
    function Choikinis(): seq<ChoikiniEntity> reads this { choikinis }

    constructor ()
      ensures Id() == "" && Choikinis() == []
    {
      id := "";
      choikinis := [];
    }

    method SetId(id: string)
      modifies this`id
      ensures Id() == id
      ensures Choikinis() == old(Choikinis())
    {
      this.id := id;
    }

    /** Replaces the whole sequence of entries. */
    method SetChoikinis(entries: seq<ChoikiniEntity>)
      modifies this`choikinis
      ensures Choikinis() == entries
      ensures Id() == old(Id())
    {
      choikinis := entries;
    }
  }

  /** All properties of a User at once, for stating what a setter leaves alone. */
  datatype UserFields = UserFields(
    id: Option<string>,
    name: string,
    password: string,
    auth: UserAccess,
    token: string,
    choikinis: ChoikiniList)

  /** A user document. Its Id may be set to undefined. */
  class User {
    var id: Option<string>
    var name: string
    var password: string
    var auth: UserAccess
    var token: string
    var choikinis: ChoikiniList

    function Id(): Option<string> reads this { id }
    function Name(): string reads this { name }
    function Password(): string reads this { password }
    function Auth(): UserAccess reads this { auth }
    function Token(): string reads this { token }
    function Choikinis(): ChoikiniList reads this { choikinis }

    function Fields(): UserFields reads this {
      UserFields(id, name, password, auth, token, choikinis)
    }

    /**
     * Id, Name, Password and Token are "", Auth is USUAL, and the entry list
     * is a new, empty ChoikiniList.
     */
    constructor ()
      ensures Id() == Some("") && Name() == "" && Password() == "" && Token() == ""
      ensures Auth() == Usual
      ensures fresh(Choikinis())
      ensures Choikinis().Id() == "" && Choikinis().Choikinis() == []
    {
      id := Some("");
      name := "";
      password := "";
      auth := Usual;
      token := "";
      choikinis := new ChoikiniList();
    }

    method SetId(id: Option<string>)
      modifies this`id
      ensures Id() == id
      ensures Fields() == old(Fields()).(id := id)
    {
      this.id := id;
    }

    method SetName(name: string)
      modifies this`name
      ensures Name() == name
      ensures Fields() == old(Fields()).(name := name)
    {
      this.name := name;
    }

    method SetPassword(password: string)
      modifies this`password
      ensures Password() == password
      ensures Fields() == old(Fields()).(password := password)
    {
      this.password := password;
    }

    method SetAuth(auth: UserAccess)
      modifies this`auth
      ensures Auth() == auth
      ensures Fields() == old(Fields()).(auth := auth)
    {
      this.auth := auth;
    }

    method SetToken(token: string)
      modifies this`token
      ensures Token() == token
      ensures Fields() == old(Fields()).(token := token)
    {
      this.token := token;
    }

    /** Stores the given list object itself (the reference, not a copy). */
    method SetChoikinis(list: ChoikiniList)
      modifies this`choikinis
      ensures Choikinis() == list
      ensures Fields() == old(Fields()).(choikinis := list)
    {
      choikinis := list;
    }
  }

  /** What registering an entry needs: the user and the entry. */
  class ChikiniRegistInfo {
    var user: User
    var entry: ChoikiniEntity

    function User(): User reads this { user }
    function Entry(): ChoikiniEntity reads this { entry }

    /** A new entry with undefined properties and a new default user. */
    constructor ()
      ensures fresh(User()) && fresh(Entry()) && fresh(User().Choikinis())
      ensures User().Fields() == UserFields(Some(""), "", "", Usual, "", User().Choikinis())
      ensures User().Choikinis().Id() == "" && User().Choikinis().Choikinis() == []
      ensures Entry().EntryDate() == None && Entry().Entry() == None
    {
      entry := new ChoikiniEntity();
      user := new User();
    }

    method SetUser(u: User)
      modifies this`user
      ensures User() == u && Entry() == old(Entry())
    {
      user := u;
    }

    method SetEntry(e: ChoikiniEntity)
      modifies this`entry
      ensures Entry() == e && User() == old(User())
    {
      entry := e;
    }
  }

  /** A value inside a link object of _links (an href or name text, or the templated flag). */
  datatype LinkValue = Text(text: string) | Flag(flag: bool)

  /** StateDetail: a message, or a detail object whose contents are not modelled. */
  datatype Detail = DetailText(text: string) | DetailObject

  /** Response: the empty object {}, or a payload of the response type. */
  datatype Payload<T> = EmptyObject | Body(value: T)

  /**
   * The _embedded part of a HAL response: the outcome State, its StateDetail
   * and the Response. By the documented convention, Response is {} when
   * State is NG.
   */
  class HalEmbedded<T> {
    var state: string
    var stateDetail: Detail
    var response: Payload<T>

    function State(): string reads this { state }
    function StateDetail(): Detail reads this { stateDetail }
    function Response(): Payload<T> reads this { response }

    /** The documented convention: State = NG implies Response is {}. */
    predicate Conforms() reads this {
      state == StateNg ==> response.EmptyObject?
    }

    /** Settled once State holds one of HAL_EMBEDDED_STATE's values. */
    predicate Settled() reads this {
      IsResponseState(state)
    }

    /** State and StateDetail are "", Response is {}: conforming, not yet settled. */
    constructor ()
      ensures State() == "" && StateDetail() == DetailText("") && Response() == EmptyObject
      ensures Conforms() && !Settled()
    {
      state := "";
      stateDetail := DetailText("");
      response := EmptyObject;
    }

    /**
     * Any state but NG keeps the convention; NG keeps it only over an empty
     * response. The setter itself checks nothing.
     */
    method SetState(s: string)
      modifies this`state
      ensures State() == s
      ensures StateDetail() == old(StateDetail()) && Response() == old(Response())
      ensures old(Conforms()) && s != StateNg ==> Conforms()
      ensures s == StateNg ==> (Conforms() <==> Response().EmptyObject?)
      ensures Settled() <==> s in {"OK", "NG"}
    {
      state := s;
    }

    method SetStateDetail(d: Detail)
      modifies this`stateDetail
      ensures StateDetail() == d
      ensures State() == old(State()) && Response() == old(Response())
      ensures Conforms() == old(Conforms())
    {
      stateDetail := d;
    }

    /** An empty response always conforms; a payload conforms unless State is NG. */
    method SetResponse(r: Payload<T>)
      modifies this`response
      ensures Response() == r
      ensures State() == old(State()) && StateDetail() == old(StateDetail())
      ensures r.EmptyObject? ==> Conforms()
      ensures Conforms() <==> (old(State()) != StateNg || r.EmptyObject?)
    {
      response := r;
    }
  }

  /** A HAL response object: _links and _embedded. */
  class Hal<T> {
    var links: map<string, map<string, LinkValue>>
    var embedded: HalEmbedded<T>

    function Links(): map<string, map<string, LinkValue>> reads this { links }
    function Embedded(): HalEmbedded<T> reads this { embedded }

    /** Empty _links and a new default HalEmbedded. */
    constructor ()
      ensures Links() == map[] && fresh(Embedded())
      ensures Embedded().State() == "" && Embedded().StateDetail() == DetailText("")
      ensures Embedded().Response() == EmptyObject
    {
      links := map[];
      embedded := new HalEmbedded<T>();
    }

    method SetLinks(hash: map<string, map<string, LinkValue>>)
      modifies this`links
      ensures Links() == hash && Embedded() == old(Embedded())
    {
      links := hash;
    }

    method SetEmbedded(e: HalEmbedded<T>)
      modifies this`embedded
      ensures Embedded() == e && Links() == old(Links())
    {
      embedded := e;
    }
  }

  /** Response body of login: the issued token. */
  class LoginJSON {
    var token: string

    function Token(): string reads this { token }

    constructor ()
      ensures Token() == ""
    {
      token := "";
    }

    method SetToken(t: string)
      modifies this`token
      ensures Token() == t
    {
      token := t;
    }
  }

  /** Response body of fetching one user's entries. */
  class ChoikiniJSON {
    var user: string
    var choikiniList: seq<ChoikiniEntity>

    function User(): string reads this { user }
    function ChoikiniList(): seq<ChoikiniEntity> reads this { choikiniList }

    constructor ()
      ensures User() == "" && ChoikiniList() == []
    {
      user := "";
      choikiniList := [];
    }

    method SetUser(name: string)
      modifies this`user
      ensures User() == name && ChoikiniList() == old(ChoikiniList())
    {
      user := name;
    }

    method SetChoikiniList(list: seq<ChoikiniEntity>)
      modifies this`choikiniList
      ensures ChoikiniList() == list && User() == old(User())
    {
      choikiniList := list;
    }
  }

  /** Response body of an update or insert: whether it was processed. */
  class UpsertResultJSON {
    var isProcessed: bool

    function IsProcessed(): bool reads this { isProcessed }

    constructor ()
      ensures !IsProcessed()
    {
      isProcessed := false;
    }

    method SetIsProcessed(b: bool)
      modifies this`isProcessed
      ensures IsProcessed() == b
    {
      isProcessed := b;
    }
  }
}
