/**
 * The user data-transfer object shared by client and service: four nullable
 * strings fixed at construction, field-wise `equals`, and a `hashCode` built
 * from username, password, first name and password again.
 */
module UserDtos {
  import opened Wrappers
  import opened JavaLang

  /** A user DTO; a `None` field is a Java `null`. The getters are the destructors. */
  datatype UserDto = UserDto(
    username: Option<string>,
    password: Option<string>,
    firstname: Option<string>,
    lastname: Option<string>)

  /** The protected no-argument constructor used by XML unmarshalling. */
  function EmptyUserDto(): (d: UserDto)
    ensures d.username.None? && d.password.None? && d.firstname.None? && d.lastname.None?
  {
    UserDto(None, None, None, None)
  }

  /** `UserDTO(username, password, lastname, firstname)`: note the order of the last two. */
  function NewUserDto(username: Option<string>, password: Option<string>,
                      lastname: Option<string>, firstname: Option<string>): (d: UserDto)
    ensures d.username == username && d.password == password
    ensures d.lastname == lastname && d.firstname == firstname
  {
    UserDto(username, password, firstname, lastname)
  }

  /** `UserDTO(username, password)`: delegates with null last and first names. */
  function NewCredentialsDto(username: Option<string>, password: Option<string>): (d: UserDto)
    ensures d.username == username && d.password == password
    ensures d.firstname.None? && d.lastname.None?
  {
    NewUserDto(username, password, None, None)
  }

  /** A Java value that `equals` may be handed: null, a user DTO object, or some other object. */
  datatype JavaObject = Null | UserObject(ref: nat, dto: UserDto) | OtherObject(ref: nat)

  /**
   * Objects seen together come from one heap: two non-null objects with the
   * same reference are the same object.
   */
  ghost predicate Coherent(objs: set<JavaObject>)
  {
    forall a, b :: a in objs && b in objs && !a.Null? && !b.Null? && a.ref == b.ref ==> a == b
  }

  /**
   * `equals`: false unless `obj` is a user DTO, true for the same object,
   * otherwise the four fields compared with an `EqualsBuilder` chain.
   */
  function Equals(self: JavaObject, obj: JavaObject): (r: bool)
    requires self.UserObject?
    ensures !obj.UserObject? ==> !r
    ensures obj.UserObject? && obj.ref == self.ref ==> r
    ensures obj.UserObject? && obj.ref != self.ref ==> (r <==> obj.dto == self.dto)
  {
    if !obj.UserObject? then false
    else if obj == self || obj.ref == self.ref then true
    else
      var u, v := self.dto, obj.dto;
      var e := EqualsAppend(true, u.username, v.username);
      var e := EqualsAppend(e, u.password, v.password);
      var e := EqualsAppend(e, u.firstname, v.firstname);
      EqualsAppend(e, u.lastname, v.lastname)
  }

  /** `hashCode`: `new HashCodeBuilder(17, 31)` over username, password, firstname, password. */
  function HashCode(d: UserDto): (h: int)
    ensures IsInt32(h)
  {
    var t := HashAppend(HashInitial, d.username);
    var t := HashAppend(t, d.password);
    var t := HashAppend(t, d.firstname);
    HashAppend(t, d.password)
  }

  /** On a coherent heap, `equals` holds exactly when both are user DTOs with equal fields. */
  lemma EqualsIffSameFields(a: JavaObject, b: JavaObject)
    requires a.UserObject? && Coherent({a, b})
    ensures Equals(a, b) <==> b.UserObject? && a.dto == b.dto
  {
    if b.UserObject? && b.ref == a.ref {
      assert a == b;
    }
  }

  lemma EqualsReflexive(a: JavaObject)
    requires a.UserObject?
    ensures Equals(a, a)
  {
  }

  lemma EqualsSymmetric(a: JavaObject, b: JavaObject)
    requires a.UserObject? && b.UserObject? && Coherent({a, b})
    ensures Equals(a, b) <==> Equals(b, a)
  {
    EqualsIffSameFields(a, b);
    EqualsIffSameFields(b, a);
  }

  lemma EqualsTransitive(a: JavaObject, b: JavaObject, c: JavaObject)
    requires a.UserObject? && b.UserObject? && Coherent({a, b, c})
    requires Equals(a, b) && Equals(b, c)
    ensures Equals(a, c)
  {
    assert Coherent({a, b}) && Coherent({b, c}) && Coherent({a, c});
    EqualsIffSameFields(a, b);
    EqualsIffSameFields(b, c);
    EqualsIffSameFields(a, c);
  }

  /** `equals` and `hashCode` agree: equal user DTOs have equal hash codes. */
  lemma EqualsImpliesEqualHashCodes(a: JavaObject, b: JavaObject)
    requires a.UserObject? && Coherent({a, b}) && Equals(a, b)
    ensures b.UserObject? && HashCode(a.dto) == HashCode(b.dto)
  {
    EqualsIffSameFields(a, b);
  }

  /**
   * The hash code as one polynomial in 31: the last name never contributes
   * and the password contributes twice, with weights 31^2 and 1.
   */
  lemma {:induction false} HashCodePolynomial(d: UserDto)
    ensures HashCode(d) == Int32(HashInitial * 923521 + FieldHash(d.username) * 29791
                                 + FieldHash(d.password) * 962 + FieldHash(d.firstname) * 31)
  {
    var u, p, f := FieldHash(d.username), FieldHash(d.password), FieldHash(d.firstname);
    var t1 := HashInitial * 31 + u;
    var t2 := t1 * 31 + p;
    var t3 := t2 * 31 + f;
    Int32Step(t1, 31, p);
    Int32Step(t2, 31, f);
    Int32Step(t3, 31, p);
    assert HashCode(d) == Int32(t3 * 31 + p);
  }

  /** Two DTOs that differ only in the last name hash alike. */
  lemma HashCodeIgnoresLastname(d: UserDto, lastname: Option<string>)
    ensures HashCode(d.(lastname := lastname)) == HashCode(d)
  {
  }

  /**
   * Equal hash codes do not imply `equals`: two distinct DTOs that differ
   * only in the last name collide.
   */
  lemma DifferentLastnamesCollide()
    ensures var a := UserObject(0, NewUserDto(Some("ann"), Some("pw"), Some("Lee"), Some("Ann")));
            var b := UserObject(1, NewUserDto(Some("ann"), Some("pw"), Some("Kim"), Some("Ann")));
            !Equals(a, b) && HashCode(a.dto) == HashCode(b.dto)
  {
    var a := UserObject(0, NewUserDto(Some("ann"), Some("pw"), Some("Lee"), Some("Ann")));
    var b := UserObject(1, NewUserDto(Some("ann"), Some("pw"), Some("Kim"), Some("Ann")));
    assert a.dto.lastname != b.dto.lastname by {
      assert a.dto.lastname.value[0] == 'L' && b.dto.lastname.value[0] == 'K';
    }
    HashCodeIgnoresLastname(a.dto, b.dto.lastname);
  }
}
