# yadm common helpers: update-document builder and enclosed-class descriptor

This project models the shared helpers of yadm, an object-document mapper for
MongoDB, and proves properties of that model in Dafny.

- `UpdateQuery` (`update_query.dfy`) models `build_update_query`. It takes up to
  five optional modifier dicts (`set`, `unset`, `inc`, `push`, `pull`) and builds
  the MongoDB update document keyed by `$set`, `$unset`, `$inc`, `$push` and
  `$pull`. Absent or empty arguments are falsy and are skipped, and an empty
  document collapses to `None`. `unset` may be a list of field names, which is
  turned into `{name: True}`, or a dict, which is passed through unchanged.
- `EnclosedDoc` (`descriptor.dfy`) models `EnclosedDocDescriptor`. This is the
  descriptor through which an embedded-document or reference field reaches the
  document class it encloses. The field object is a class `Field` with a mutable
  attribute map and the value of its `document_class` attribute. The descriptor is a
  class whose slot name is fixed at construction: `_embedded_document_class` or
  `_reference_document_class`. `Get` resolves a stored dotted name the first time
  it is read and caches the result in that slot. `Field` has no counterpart
  in the source's own code. It stands for the `instance` argument that
  `__get__`, `__set__` and `__delete__` receive. Its constructor only sets up
  a field with no slots and a given `document_class`.
- `Values` (`values.dfy`) holds the wire values (`Value`), the `Option` wrapper
  and Python truthiness of an optional dict.

The dotted-name resolver (`zope.dottedname.resolve`) is a foreign call. It is a
parameter `resolve: string -> Option<ClassId>`, where `None` stands for the
`ImportError` it raises. Python exceptions become explicit outcomes:
- `ValueError` from the constructor: `Create` returns null.
- `AttributeError` for a missing `document_class`: `AttributeError`.
- `ImportError`: `ImportError(name)`.
- `AttributeError` from `delattr`: `Delete` returns `ok == false`.

## Model

| member | source | states |
|---|---|---|
| UpdateQuery.BuildUpdateQuery | yadm/common.py:64-87 | The result is None exactly when all five arguments are falsy. Otherwise it is a non-empty document whose keys are among the five operators. Each operator key is present iff its argument is truthy, and it holds that argument unchanged (for `$unset`, its normalised fields). |
| Values.Truthy | yadm/common.py:69-85 | The tests `if set:`, `if inc:`, `if push:` and `if pull:`: a dict argument is truthy exactly when it is given and holds at least one field. |
| UpdateQuery.UnsetTruthy | yadm/common.py:72 | The test `if unset:`: an `unset` argument is truthy exactly when it is given and names at least one field, in either form. |
| UpdateQuery.UnsetNames | yadm/common.py:72-76 | The field names an `unset` argument asks to remove are exactly the listed names (list form) or the dict's keys (dict form). |
| UpdateQuery.MarkUnset | yadm/common.py:76 | The comprehension `{f: True for f in unset}` has exactly the listed names as keys, and every value is `True`. |
| UpdateQuery.UnsetFields | yadm/common.py:72-76 | The `$unset` value's keys are the names the argument asks to remove. A dict is placed verbatim, values included. A list is mapped to `True` throughout. |
| UpdateQuery.UnsetTruthyMeansNonEmpty | yadm/common.py:72-76 | An `unset` argument is truthy iff the `$unset` dict built from it is non-empty, in either form. |
| UpdateQuery.MarkUnsetSize | yadm/common.py:76 | Duplicate names collapse. The dict never has more entries than the list, and it has as many exactly when the names are distinct. |
| UpdateQuery.UnsetFormsAgree | tests/test_database.py:105-114 | A name list and a dict with the same keys give documents that are both None or both present, with the same operators and the same unset names. When the dict's values are all `True` (`['i']` against `{'i': True}`), the two documents are equal. |
| UpdateQuery.EntriesIndependent | yadm/common.py:67-85 | Whether an operator's entry is present, and its value, depend only on that operator's own argument. Changing the other four leaves the entry unchanged. |
| EnclosedDoc.SlotName | yadm/common.py:17-24 | Only the kinds `embedded` and `reference` are accepted. The slot is `_` + kind + `_document_class`: it starts with `_`, the kind can be read back from it, and it never equals `document_class`. |
| EnclosedDoc.SlotNameInjective | yadm/common.py:22 | Equal slot names imply equal kinds, so the two kinds never share a slot. |
| EnclosedDoc.Resolve | yadm/common.py:30-36 | A successful read never returns an unresolved name, and a non-string stored value is returned unchanged. `'self'` gives the field's `document_class`, wrapped as a class. Any other name gives what the resolver returns for it. `AttributeError` happens exactly for `'self'` on a field without a `document_class` attribute. `ImportError` happens exactly for another name that the resolver rejects. |
| EnclosedDoc.Lookup | yadm/common.py:30 | `getattr(instance, attr_name, None)`: a present attribute is read as it is, and an absent one reads as `None`. |
| EnclosedDoc.AfterGet | yadm/common.py:32-37 | The attributes after a read are unchanged when the stored value is not a name, or when resolving it raised. Otherwise only the slot changes: it now holds the resolved value, which is never a name. Every other attribute keeps its value. |
| EnclosedDoc.GetMemoises | yadm/common.py:32-42 | After a successful read has cached its result, a second read returns the same value and writes nothing. It does not depend on the resolver, so the name is not resolved again. This relies on resolved values never being strings (see Left out). |
| EnclosedDoc.KindsIndependent | yadm/common.py:37-42 | A read, and the write-back it does, through one kind's descriptor leaves the other kind's slot as it was. |
| EnclosedDoc.EnclosedDocDescriptor.constructor | yadm/common.py:20-22 | For an accepted kind, the descriptor's slot name is the one `SlotName` derives from that kind. |
| EnclosedDoc.EnclosedDocDescriptor.Create | yadm/common.py:20-24 | Construction fails (`ValueError`) exactly for kinds other than `embedded` and `reference`. Otherwise it yields a fresh descriptor with that kind's slot name. |
| EnclosedDoc.EnclosedDocDescriptor.Get | yadm/common.py:26-39 | With no instance, the result is the descriptor itself. Otherwise the result is `Resolve` of the stored value, or `None` when the slot is absent. The new attributes are the old ones with a resolved name written back into the slot. `document_class` is left unchanged. |
| EnclosedDoc.EnclosedDocDescriptor.Set | yadm/common.py:41-42 | Exactly this descriptor's slot is set to the value. Nothing else on the field changes. |
| EnclosedDoc.EnclosedDocDescriptor.Delete | yadm/common.py:44-45 | The slot is removed. `ok` reports whether it existed; when it is false, `delattr` raises `AttributeError`. Nothing else changes. |

## Left out

- `BaseResult` (yadm/common.py:48-61) is a read-only mapping that passes the raw driver result through. It has no logic beyond delegation.
- The order of keys in the update document is not modelled. Python dicts keep insertion order (`$set`, `$unset`, `$inc`, `$push`, `$pull`), but the model uses a Dafny `map`. MongoDB does not depend on that order.
- Not every `unset` value is modelled. The source sends any non-`dict` value through the comprehension: a tuple, a set, a string (one entry per character) or a non-`dict` mapping (one entry per key). The model has only the list and `dict` forms.
- The arguments are typed as dicts (or a list for `unset`). Other values that are truthy in Python are not modelled.
- `EnclosedDoc.EnclosedDocDescriptor.Get` treats only a missing instance as "no instance". The source's `if not instance` would also return the descriptor for a field object whose own truthiness is false.
- The owner's `document_class` and the resolver's result are modelled as class identities (`ClassId`). In the source they can be any Python object.
- EnclosedDoc.GetMemoises: the model promises memoisation for every input because a resolved value is never a string here. In the source, `getattr(instance, 'document_class')` (yadm/common.py:34) or `resolve(value)` (yadm/common.py:36) could return a `str`. Line 37 would cache that string, and the next `__get__` would resolve it again (line 32), so the second read could differ from the first.
- The update document holds copies of the argument values. The source stores the caller's own dict objects in the document (yadm/common.py:70, 74, 79, 82, 85), so a later change to one of those dicts would show through the document. Nothing in this code depends on that sharing, and Dafny maps are values.
- Python's attribute lookup (class attributes, `__getattr__`, descriptors on the owner) is not modelled. The field's attributes are a plain map that the descriptor reads and writes.
- Other files of the repository are not part of this model: the bulk writer, the database facade, document change tracking and serialisation. They are outside the scope of this model, which covers yadm/common.py only.
