/** One item of a Unix System Services (USS) directory listing. The built object keeps the
    builder's possibly-null fields as they are; its getters wrap them as Optionals. */
module UnixFiles {
  import opened Lang

  /** A UnixFile: every field final and possibly null. */
  datatype UnixFile = UnixFile(
    name: Nullable<string>,
    mode: Nullable<string>,
    size: Nullable<int64>,
    uid: Nullable<int64>,
    user: Nullable<string>,
    gid: Nullable<int64>,
    group: Nullable<string>,
    mtime: Nullable<string>,
    target: Nullable<string>)
  {
    function GetName(): (r: Optional<string>)
      ensures r.Empty? <==> name.Null?
      ensures name.NonNull? ==> r == Present(name.value)
    {
      OfNullable(name)
    }

    function GetMode(): (r: Optional<string>)
      ensures r.Empty? <==> mode.Null?
      ensures mode.NonNull? ==> r == Present(mode.value)
    {
      OfNullable(mode)
    }

    function GetSize(): (r: Optional<int64>)
      ensures r.Empty? <==> size.Null?
      ensures size.NonNull? ==> r == Present(size.value)
    {
      OfNullable(size)
    }

    function GetUid(): (r: Optional<int64>)
      ensures r.Empty? <==> uid.Null?
      ensures uid.NonNull? ==> r == Present(uid.value)
    {
      OfNullable(uid)
    }

    function GetUser(): (r: Optional<string>)
      ensures r.Empty? <==> user.Null?
      ensures user.NonNull? ==> r == Present(user.value)
    {
      OfNullable(user)
    }

    function GetGid(): (r: Optional<int64>)
      ensures r.Empty? <==> gid.Null?
      ensures gid.NonNull? ==> r == Present(gid.value)
    {
      OfNullable(gid)
    }

    function GetGroup(): (r: Optional<string>)
      ensures r.Empty? <==> group.Null?
      ensures group.NonNull? ==> r == Present(group.value)
    {
      OfNullable(group)
    }

    function GetMtime(): (r: Optional<string>)
      ensures r.Empty? <==> mtime.Null?
      ensures mtime.NonNull? ==> r == Present(mtime.value)
    {
      OfNullable(mtime)
    }

    function GetTarget(): (r: Optional<string>)
      ensures r.Empty? <==> target.Null?
      ensures target.NonNull? ==> r == Present(target.value)
    {
      OfNullable(target)
    }
  }

  class Builder {
    var name: Nullable<string>
    var mode: Nullable<string>
    var size: Nullable<int64>
    var uid: Nullable<int64>
    var user: Nullable<string>
    var gid: Nullable<int64>
    var group: Nullable<string>
    var mtime: Nullable<string>
    var target: Nullable<string>

    /** The implicit constructor: every field null, so what it builds has every getter empty. */
    constructor ()
      ensures name == Null && mode == Null && size == Null && uid == Null && user == Null
      ensures gid == Null && group == Null && mtime == Null && target == Null
      ensures var f := Build();
        && f.GetName() == Empty && f.GetMode() == Empty && f.GetSize() == Empty
        && f.GetUid() == Empty && f.GetUser() == Empty && f.GetGid() == Empty
        && f.GetGroup() == Empty && f.GetMtime() == Empty && f.GetTarget() == Empty
    {
      name := Null;
      mode := Null;
      size := Null;
      uid := Null;
      user := Null;
      gid := Null;
      group := Null;
      mtime := Null;
      target := Null;
    }

    method Name(name: Nullable<string>) returns (b: Builder)
      modifies this`name
      ensures b == this && this.name == name
    {
      this.name := name;
      b := this;
    }

    method Mode(mode: Nullable<string>) returns (b: Builder)
      modifies this`mode
      ensures b == this && this.mode == mode
    {
      this.mode := mode;
      b := this;
    }

    method Size(size: Nullable<int64>) returns (b: Builder)
      modifies this`size
      ensures b == this && this.size == size
    {
      this.size := size;
      b := this;
    }

    method Uid(uid: Nullable<int64>) returns (b: Builder)
      modifies this`uid
      ensures b == this && this.uid == uid
    {
      this.uid := uid;
      b := this;
    }

    method User(user: Nullable<string>) returns (b: Builder)
      modifies this`user
      ensures b == this && this.user == user
    {
      this.user := user;
      b := this;
    }

    method Gid(gid: Nullable<int64>) returns (b: Builder)
      modifies this`gid
      ensures b == this && this.gid == gid
    {
      this.gid := gid;
      b := this;
    }

    method Group(group: Nullable<string>) returns (b: Builder)
      modifies this`group
      ensures b == this && this.group == group
    {
      this.group := group;
      b := this;
    }

    method Mtime(mtime: Nullable<string>) returns (b: Builder)
      modifies this`mtime
      ensures b == this && this.mtime == mtime
    {
      this.mtime := mtime;
      b := this;
    }

    method Target(target: Nullable<string>) returns (b: Builder)
      modifies this`target
      ensures b == this && this.target == target
    {
      this.target := target;
      b := this;
    }

    /** Builder.build with the UnixFile constructor: all nine fields copied unchanged. */
    function Build(): (f: UnixFile)
      reads this
      ensures f.name == name && f.mode == mode && f.size == size && f.uid == uid && f.user == user
      ensures f.gid == gid && f.group == group && f.mtime == mtime && f.target == target
    {
      UnixFile(name, mode, size, uid, user, gid, group, mtime, target)
    }
  }
}
