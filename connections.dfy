/** The connection descriptors: ZosConnection for z/OSMF REST calls (with an optional
    session cookie that may be attached after construction) and SshConnection. */
module Connections {
  import opened Lang

  /** A unirest cookie: a name and a value. */
  datatype Cookie = Cookie(name: string, value: string)

  /** The value of `new Cookie("")`, the stand-in ZosConnection.equals compares an absent
      cookie as. */
  const DEFAULT_COOKIE_VALUE: string := ""

  /** The argument of Java's equals(Object): null, one of the two connection classes,
      or an object of some other class. */
  datatype JavaObject =
    | NullObject
    | ZosObject(conn: ZosConnection)
    | SshObject(ssh: SshConnection)
    | OtherObject
  {
    function Footprint(): set<object> {
      if ZosObject? then {conn} else {}
    }
  }

  class ZosConnection {
    const host: Nullable<string>
    const zosmfPort: Nullable<string>
    const user: Nullable<string>
    const password: Nullable<string>
    var cookie: Optional<Cookie>

    /** A new connection authenticates through headers: it carries no cookie. */
    constructor (host: Nullable<string>, zosmfPort: Nullable<string>, user: Nullable<string>, password: Nullable<string>)
      ensures this.host == host && this.zosmfPort == zosmfPort
      ensures this.user == user && this.password == password
      ensures GetCookie() == Empty
    {
      this.host := host;
      this.zosmfPort := zosmfPort;
      this.user := user;
      this.password := password;
      this.cookie := Empty;
    }

    /** getCookie: the attached cookie, if any; what equals compares is its value, or the
        default value when none is attached. */
    function GetCookie(): (r: Optional<Cookie>)
      reads this
      ensures r == cookie
      ensures r.Empty? ==> CookieValue() == DEFAULT_COOKIE_VALUE
      ensures r.Present? ==> CookieValue() == r.value.value
    {
      cookie
    }

    /** Attaching a cookie switches to cookie authentication; setting null reverts to
        header authentication. The other fields are final. */
    method SetCookie(c: Nullable<Cookie>)
      modifies this`cookie
      ensures GetCookie().Present? <==> c.NonNull?
      ensures c.NonNull? ==> GetCookie() == Present(c.value)
    {
      cookie := OfNullable(c);
    }

    /** The cookie value equals compares: the cookie's, or the default one when absent. */
    function CookieValue(): string
      reads this
    {
      cookie.OrElse(Cookie("", DEFAULT_COOKIE_VALUE)).value
    }

    /** ZosConnection.equals: identity, then the class test, then field by field. */
    predicate Equals(obj: JavaObject): (r: bool)
      reads this, obj.Footprint()
      ensures obj == ZosObject(this) ==> r
      ensures !obj.ZosObject? ==> !r
      ensures obj.ZosObject? && r ==> CookieValue() == obj.conn.CookieValue()
    {
      if obj.ZosObject? && obj.conn == this then true
      else if !obj.ZosObject? then false
      else
        var other := obj.conn;
        && host == other.host && zosmfPort == other.zosmfPort
        && user == other.user && password == other.password
        && CookieValue() == other.CookieValue()
    }
  }

  /** Field-wise equality of two z/OSMF connections, an absent cookie read as the default value. */
  ghost predicate SameZosFields(a: ZosConnection, b: ZosConnection)
    reads a, b
  {
    && a.host == b.host && a.zosmfPort == b.zosmfPort
    && a.user == b.user && a.password == b.password
    && a.CookieValue() == b.CookieValue()
  }

  /** The identity shortcut agrees with the field comparison: equals is exactly field-wise equality. */
  lemma ZosEqualsFieldwise(a: ZosConnection, b: ZosConnection)
    ensures a.Equals(ZosObject(b)) <==> SameZosFields(a, b)
  {
  }

  /** equals is false for null and for objects of another class. */
  lemma ZosEqualsOtherClass(a: ZosConnection, obj: JavaObject)
    requires !obj.ZosObject?
    ensures !a.Equals(obj)
  {
  }

  lemma ZosEqualsReflexive(a: ZosConnection)
    ensures a.Equals(ZosObject(a))
  {
  }

  lemma ZosEqualsSymmetric(a: ZosConnection, b: ZosConnection)
    ensures a.Equals(ZosObject(b)) <==> b.Equals(ZosObject(a))
  {
  }

  lemma ZosEqualsTransitive(a: ZosConnection, b: ZosConnection, c: ZosConnection)
    requires a.Equals(ZosObject(b)) && b.Equals(ZosObject(c))
    ensures a.Equals(ZosObject(c))
  {
  }

  /** Only the cookie's value counts: a connection without a cookie equals one whose cookie
      has the default value. */
  lemma ZosEqualsComparesCookieValueOnly(a: ZosConnection, b: ZosConnection)
    requires a.host == b.host && a.zosmfPort == b.zosmfPort && a.user == b.user && a.password == b.password
    requires a.cookie == Empty && b.cookie.Present? && b.cookie.value.value == DEFAULT_COOKIE_VALUE
    ensures a.Equals(ZosObject(b))
  {
  }

  /** Cookies with different names but equal values compare equal. */
  lemma ZosEqualsIgnoresCookieName(a: ZosConnection, b: ZosConnection)
    requires a.host == b.host && a.zosmfPort == b.zosmfPort && a.user == b.user && a.password == b.password
    requires a.cookie.Present? && b.cookie.Present? && a.cookie.value.value == b.cookie.value.value
    ensures a.Equals(ZosObject(b))
  {
  }

  /** 31^k */
  function Pow31(k: nat): int {
    if k == 0 then 1 else 31 * Pow31(k - 1)
  }

  /** The hash polynomial of String.hashCode's documentation:
      u[0]*31^(n-1) + u[1]*31^(n-2) + ... + u[n-1]. */
  function HashPolynomial(u: seq<int>): int
    decreases |u|
  {
    if u == [] then 0 else u[0] * Pow31(|u| - 1) + HashPolynomial(u[1..])
  }

  /** Appending one unit multiplies the polynomial by 31 and adds the unit. */
  lemma {:induction false} HashPolynomialSnoc(u: seq<int>, x: int)
    ensures HashPolynomial(u + [x]) == 31 * HashPolynomial(u) + x
    decreases |u|
  {
    if u == [] {
      assert [] + [x] == [x];
      assert [x][1..] == [];
    } else {
      assert (u + [x])[1..] == u[1..] + [x];
      HashPolynomialSnoc(u[1..], x);
      assert Pow31(|u|) == 31 * Pow31(|u| - 1);
    }
  }

  /** The loop of String.hashCode over UTF-16 code units: h = 31 * h + unit, in int
      arithmetic. It agrees with the documented polynomial modulo 2^32. */
  function UnitsHash(u: seq<int>): (h: int32)
    ensures (h as int - HashPolynomial(u)) % 0x1_0000_0000 == 0
    decreases |u|
  {
    if u == [] then 0
    else
      var prefix, last := u[..|u| - 1], u[|u| - 1];
      var h' := UnitsHash(prefix);
      assert u == prefix + [last];
      HashPolynomialSnoc(prefix, last);
      CongruenceScale(h' as int, HashPolynomial(prefix), 31, last, Wrap32(31 * h' as int + last) as int);
      Wrap32(31 * h' as int + last)
  }

  /** Java's String.hashCode, computed over the string's UTF-16 code units. */
  function StringHash(s: string): (h: int32)
    ensures (h as int - HashPolynomial(Utf16Units(s))) % 0x1_0000_0000 == 0
    ensures s == [] ==> h == 0
  {
    UnitsHash(Utf16Units(s))
  }

  /** Two known values of String.hashCode: "ab" hashes to 97·31 + 98, and U+1F600, stored as
      the surrogate pair D83D DE00, hashes to 0xD83D·31 + 0xDE00. */
  lemma StringHashExamples()
    ensures StringHash("ab") == 3105
    ensures StringHash("\U{1F600}") == 1772899
  {
    assert Utf16Units("ab") == [97, 98];
    assert [97, 98][..1] == [97];
    assert Utf16Units("\U{1F600}") == [0xD83D, 0xDE00];
    assert [0xD83D, 0xDE00][..1] == [0xD83D];
  }

  /** Objects.hashCode of a string reference: 0 for null. */
  function NullableStringHash(s: Nullable<string>): int32 {
    match s
    case Null => 0
    case NonNull(v) => StringHash(v)
  }

  /** Arrays.hashCode over the element hashes, as Objects.hash computes it: start at 1,
      then h = 31 * h + e for each element. */
  function CombineHashes(hs: seq<int32>): int32
    decreases |hs|
  {
    if hs == [] then 1 else Wrap32(31 * CombineHashes(hs[..|hs| - 1]) as int + hs[|hs| - 1] as int)
  }

  /** An SSH connection: all four fields final. */
  datatype SshConnection = SshConnection(host: Nullable<string>, port: int32, user: Nullable<string>, password: Nullable<string>)
  {
    /** SshConnection.equals: only another SshConnection with the same four fields. */
    predicate Equals(obj: JavaObject): (r: bool)
      ensures r ==> obj.SshObject?
      ensures obj == SshObject(this) ==> r
    {
      && obj.SshObject?
      && host == obj.ssh.host && port == obj.ssh.port
      && user == obj.ssh.user && password == obj.ssh.password
    }

    /** SshConnection.hashCode: Objects.hash(host, port, user, password). */
    function HashCode(): (h: int32)
      ensures (h as int
               - (923521 + 29791 * NullableStringHash(host) as int + 961 * port as int
                  + 31 * NullableStringHash(user) as int + NullableStringHash(password) as int))
              % 0x1_0000_0000 == 0
    {
      var h0, h1, h2, h3 := NullableStringHash(host), port, NullableStringHash(user), NullableStringHash(password);
      CombineFourExpanded(h0, h1, h2, h3);
      CombineHashes([h0, h1, h2, h3])
    }
  }

  /** Two SSH connections are equal exactly when their four fields are, that is, when they
      are the same value; nothing else is ever equal to one. */
  lemma SshEqualsIsValueEquality(a: SshConnection, obj: JavaObject)
    ensures a.Equals(obj) <==> obj == SshObject(a)
  {
  }

  lemma SshEqualsSymmetric(a: SshConnection, b: SshConnection)
    ensures a.Equals(SshObject(b)) <==> b.Equals(SshObject(a))
  {
  }

  /** equals and hashCode agree, so equal connections land on the same map key. */
  lemma SshHashConsistent(a: SshConnection, b: SshConnection)
    requires a.Equals(SshObject(b))
    ensures a.HashCode() == b.HashCode()
  {
  }

  /** Changing any one field gives an unequal connection, so both can be keys of one map. */
  lemma SshSingleFieldChangeUnequal(a: SshConnection, host: Nullable<string>, port: int32,
                                    user: Nullable<string>, password: Nullable<string>)
    ensures host != a.host ==> !a.Equals(SshObject(a.(host := host)))
    ensures port != a.port ==> !a.Equals(SshObject(a.(port := port)))
    ensures user != a.user ==> !a.Equals(SshObject(a.(user := user)))
    ensures password != a.password ==> !a.Equals(SshObject(a.(password := password)))
  {
  }

  /** Arrays.hashCode of four element hashes in closed form:
      31^4 + 31^3 h0 + 31^2 h1 + 31 h2 + h3, reduced to a Java int. */
  lemma {:induction false} CombineFourExpanded(h0: int32, h1: int32, h2: int32, h3: int32)
    ensures (CombineHashes([h0, h1, h2, h3]) as int
             - (923521 + 29791 * h0 as int + 961 * h1 as int + 31 * h2 as int + h3 as int))
            % 0x1_0000_0000 == 0
  {
    var hs := [h0, h1, h2, h3];
    assert hs[..3] == [h0, h1, h2];
    var c1 := CombineHashes([h0]);
    var c2 := CombineHashes([h0, h1]);
    var c3 := CombineHashes([h0, h1, h2]);
    var c4 := CombineHashes(hs);
    assert [h0][..0] == [] && [h0, h1][..1] == [h0] && [h0, h1, h2][..2] == [h0, h1];
    var M := 0x1_0000_0000;
    assert c1 == Wrap32(31 * CombineHashes([]) as int + h0 as int);
    assert (c1 as int - (31 + h0 as int)) % M == 0;
    assert (c2 as int - (31 * c1 as int + h1 as int)) % M == 0;
    assert (c3 as int - (31 * c2 as int + h2 as int)) % M == 0;
    assert (c4 as int - (31 * c3 as int + h3 as int)) % M == 0;
    CongruenceScale(c1 as int, 31 + h0 as int, 31, h1 as int, c2 as int);
    CongruenceScale(c2 as int, 961 + 31 * h0 as int + h1 as int, 31, h2 as int, c3 as int);
    CongruenceScale(c3 as int, 29791 + 961 * h0 as int + 31 * h1 as int + h2 as int, 31, h3 as int, c4 as int);
  }

  /** If x ≡ y and z ≡ m·x + d (mod 2^32), then z ≡ m·y + d. */
  lemma CongruenceScale(x: int, y: int, m: int, d: int, z: int)
    requires (x - y) % 0x1_0000_0000 == 0
    requires (z - (m * x + d)) % 0x1_0000_0000 == 0
    ensures (z - (m * y + d)) % 0x1_0000_0000 == 0
  {
    var M := 0x1_0000_0000;
    var q := (x - y) / M;
    assert x - y == q * M;
    var p := (z - (m * x + d)) / M;
    assert z - (m * x + d) == p * M;
    assert z - (m * y + d) == p * M + m * (x - y);
    assert m * (x - y) == (m * q) * M;
    assert z - (m * y + d) == (p + m * q) * M;
  }

  /** The connections of the equality tests: equal values are equal with equal hashes, a
      different host makes them unequal. */
  lemma SshExamples()
    ensures SshConnection(NonNull("test"), 1, NonNull("user"), NonNull("password"))
              .Equals(SshObject(SshConnection(NonNull("test"), 1, NonNull("user"), NonNull("password"))))
    ensures !SshConnection(NonNull("test"), 1, NonNull("user"), NonNull("password"))
              .Equals(SshObject(SshConnection(NonNull("test2"), 1, NonNull("user"), NonNull("password"))))
    ensures !SshConnection(NonNull("test"), 1, NonNull("user"), NonNull("password")).Equals(NullObject)
  {
    assert "test" != "test2";
  }
}
