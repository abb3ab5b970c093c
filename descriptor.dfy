/** `EnclosedDocDescriptor` of yadm/common.py: the accessor through which an
    embedded-document field or a reference field reaches the document class it
    encloses. The class may be stored as a dotted name (or `'self'`) and is
    resolved on first read, then cached in the field's own attribute slot. */
module EnclosedDoc {
  import opened Values

  const EMBEDDED := "embedded"
  const REFERENCE := "reference"
  /** The owner attribute naming the document class the field belongs to. */
  const DOC_CLS := "document_class"
  /** The stored name that refers back to the owner's own document class. */
  const RECURSIVE_REF := "self"

  /** A Python class object, identified by its qualified name. */
  datatype ClassId = ClassId(qualname: string)

  /** What an attribute slot can hold: Python `None`, a dotted name still to be
      resolved, or a class object (any non-string value). */
  datatype Ref = NoneValue | Name(dotted: string) | Cls(id: ClassId)

  /** What `__get__` produces: the descriptor itself (no instance), a value,
      or the exception it lets through. */
  datatype Access =
    | Itself
    | Got(value: Ref)
    | AttributeError          // the owner has no `document_class` attribute
    | ImportError(dotted: string)  // the dotted name does not resolve

  /** The accepted kinds and the slot name each one derives; None is the `ValueError`. */
  function SlotName(kind: string): (r: Option<string>)
    ensures r.Some? <==> kind == EMBEDDED || kind == REFERENCE
    ensures r.Some? ==> |r.value| == |kind| + |DOC_CLS| + 2 && r.value[1..|kind| + 1] == kind
    ensures r.Some? ==> r.value != DOC_CLS && r.value[0] == '_'
    ensures r.Some? ==> r.value[|kind| + 1..] == "_" + DOC_CLS
  {
    if kind == EMBEDDED || kind == REFERENCE then Some("_" + kind + "_" + DOC_CLS) else None
  }

  /** The slot name determines the kind, so the two kinds use distinct slots. */
  lemma SlotNameInjective(kind: string, kind': string)
    requires SlotName(kind).Some? && SlotName(kind) == SlotName(kind')
    ensures kind == kind'
  {
  }

  /** `getattr(instance, name, None)`: an absent attribute reads as `None`. */
  function Lookup(attrs: map<string, Ref>, name: string): (r: Ref)
    ensures name in attrs ==> r == attrs[name]
    ensures name !in attrs ==> r == NoneValue
  {
    if name in attrs then attrs[name] else NoneValue
  }

  /** The value `__get__` returns for a stored value: a name is resolved (`'self'`
      to the owner's document class, anything else through `resolve`), any other
      value is returned as it is. */
  function Resolve(stored: Ref, documentClass: Option<ClassId>,
                   resolve: string -> Option<ClassId>): (r: Access)
    ensures r != Itself
    ensures r.Got? ==> !r.value.Name?
    ensures !stored.Name? ==> r == Got(stored)
    ensures r.AttributeError? <==> stored == Name(RECURSIVE_REF) && documentClass.None?
    ensures r.ImportError? <==>
      stored.Name? && stored.dotted != RECURSIVE_REF && resolve(stored.dotted).None?
    ensures stored == Name(RECURSIVE_REF) && documentClass.Some? ==>
      r == Got(Cls(documentClass.value))
    ensures stored.Name? && stored.dotted != RECURSIVE_REF && resolve(stored.dotted).Some? ==>
      r == Got(Cls(resolve(stored.dotted).value))
  {
    match stored
    case Name(dotted) =>
      if dotted == RECURSIVE_REF then
        (if documentClass.Some? then Got(Cls(documentClass.value)) else AttributeError)
      else
        (if resolve(dotted).Some? then Got(Cls(resolve(dotted).value)) else ImportError(dotted))
    case _ => Got(stored)
  }

  /** The attributes after `__get__`: a resolved name is written back into the slot. */
  function AfterGet(attrs: map<string, Ref>, name: string, documentClass: Option<ClassId>,
                    resolve: string -> Option<ClassId>): (r: map<string, Ref>)
    ensures var read := Resolve(Lookup(attrs, name), documentClass, resolve);
            !Lookup(attrs, name).Name? || !read.Got? ==> r == attrs
    ensures var read := Resolve(Lookup(attrs, name), documentClass, resolve);
            Lookup(attrs, name).Name? && read.Got? ==>
              && r.Keys == attrs.Keys + {name}
              && r[name] == read.value
              && !r[name].Name?
              && (forall n :: n in attrs && n != name ==> r[n] == attrs[n])
  {
    var r := Resolve(Lookup(attrs, name), documentClass, resolve);
    if Lookup(attrs, name).Name? && r.Got? then attrs[name := r.value] else attrs
  }

  /** Memoisation: once a read succeeds, a second read returns the same value,
      writes nothing and never consults the resolver, whichever resolver it gets. */
  lemma GetMemoises(attrs: map<string, Ref>, name: string, documentClass: Option<ClassId>,
                    resolve: string -> Option<ClassId>, resolve': string -> Option<ClassId>)
    requires Resolve(Lookup(attrs, name), documentClass, resolve).Got?
    ensures var attrs' := AfterGet(attrs, name, documentClass, resolve);
            && Resolve(Lookup(attrs', name), documentClass, resolve') ==
               Resolve(Lookup(attrs, name), documentClass, resolve)
            && AfterGet(attrs', name, documentClass, resolve') == attrs'
  {
  }

  /** A read through one kind's descriptor never changes what the other kind's
      descriptor sees. */
  lemma KindsIndependent(attrs: map<string, Ref>, kind: string, kind': string,
                         documentClass: Option<ClassId>, resolve: string -> Option<ClassId>)
    requires SlotName(kind).Some? && SlotName(kind').Some? && kind != kind'
    ensures Lookup(AfterGet(attrs, SlotName(kind).value, documentClass, resolve), SlotName(kind').value)
            == Lookup(attrs, SlotName(kind').value)
  {
  }

  /** The field object a descriptor is read through: its attribute dictionary,
      as far as the descriptor touches it, and the value of its `document_class`
      attribute (None when the field has no such attribute). */
  class Field {
    var attrs: map<string, Ref>
    var documentClass: Option<ClassId>

    constructor (documentClass: Option<ClassId>)
      ensures attrs == map[] && this.documentClass == documentClass
    {
      attrs := map[];
      this.documentClass := documentClass;
    }
  }

  class EnclosedDocDescriptor {
    /** The slot of the field object where the enclosed class is kept. */
    const attrName: string

    constructor (kind: string)
      requires kind == EMBEDDED || kind == REFERENCE
      ensures Some(attrName) == SlotName(kind)
    {
      attrName := SlotName(kind).value;
    }

    /** `EnclosedDocDescriptor(kind)`: null stands for the `ValueError` raised
        for a kind other than `embedded` and `reference`. */
    static method Create(kind: string) returns (d: EnclosedDocDescriptor?)
      ensures d == null <==> kind != EMBEDDED && kind != REFERENCE
      ensures d != null ==> fresh(d) && Some(d.attrName) == SlotName(kind)
    {
      if kind == EMBEDDED || kind == REFERENCE {
        d := new EnclosedDocDescriptor(kind);
      } else {
        d := null;
      }
    }

    /** `__get__`: no instance gives the descriptor itself; otherwise the stored
        value is resolved and, when it was a name, cached back into the slot. */
    method Get(instance: Field?, resolve: string -> Option<ClassId>) returns (r: Access)
      modifies instance
      ensures instance == null ==> r == Itself
      ensures instance != null ==>
        r == Resolve(old(Lookup(instance.attrs, attrName)), instance.documentClass, resolve)
      ensures instance != null ==>
        instance.attrs == AfterGet(old(instance.attrs), attrName, instance.documentClass, resolve)
      ensures instance != null ==> instance.documentClass == old(instance.documentClass)
    {
      if instance == null {
        return Itself;
      }
      var value := Lookup(instance.attrs, attrName);
      if value.Name? {
        if value.dotted == RECURSIVE_REF {
          if instance.documentClass.None? {
            return AttributeError;
          }
          value := Cls(instance.documentClass.value);
        } else {
          var found := resolve(value.dotted);
          if found.None? {
            return ImportError(value.dotted);
          }
          value := Cls(found.value);
        }
        Set(instance, value);
      }
      return Got(value);
    }

    /** `__set__`: stores the value in this descriptor's slot and nowhere else. */
    method Set(instance: Field, value: Ref)
      modifies instance
      ensures instance.attrs == old(instance.attrs)[attrName := value]
      ensures instance.documentClass == old(instance.documentClass)
    {
      instance.attrs := instance.attrs[attrName := value];
    }

    /** `__delete__`: removes the slot; `ok` is false for the `AttributeError`
        raised when the slot is absent. */
    method Delete(instance: Field) returns (ok: bool)
      modifies instance
      ensures ok == (attrName in old(instance.attrs))
      ensures instance.attrs == old(instance.attrs) - {attrName}
      ensures instance.documentClass == old(instance.documentClass)
    {
      ok := attrName in instance.attrs;
      instance.attrs := instance.attrs - {attrName};
    }
  }
}
