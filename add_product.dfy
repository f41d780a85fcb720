/**
 * The add-product form: one draft record edited field by field, its tag,
 * image and additional-information lists, and the reset after saving.
 */
module AddProduct {
  import opened Text
  import opened Seqs

  /** A scalar form field: a text input's value or a checkbox's state. */
  datatype FieldValue = Text(text: string) | Flag(on: bool)

  /** One additional-information row. */
  datatype InfoRow = InfoRow(key: string, value: string)

  /** Which half of a row an edit targets. */
  datatype InfoField = KeyField | ValueField

  /**
   * The product being drafted: the scalar fields by name, and the three
   * lists the form appends to and removes from.
   */
  datatype Draft = Draft(fields: map<string, FieldValue>, tags: seq<string>, images: seq<string>, additionalInfo: seq<InfoRow>)

  /** The change event of an input: its name, value, kind and checked state. */
  datatype ChangeEvent = ChangeEvent(name: string, value: string, isCheckbox: bool, checked: bool)

  /** The outcome of the image host's upload request. */
  datatype UploadResponse = Uploaded(secureUrl: string) | UploadFailed

  /** The names that hold lists rather than scalar values. */
  const ListFields: set<string> := {"tags", "images", "additionalInfo"}

  /** The empty draft the form starts from and returns to after a save. */
  const InitialDraft: Draft := Draft(
    map[
      "name" := Text(""), "category" := Text(""), "price" := Text(""), "stock" := Text(""),
      "discount" := Text(""), "productType" := Text(""), "unit" := Text(""),
      "status" := Text("in-stock"), "description" := Text(""), "featured" := Flag(false),
      "sizes" := Text("")],
    [], [], [InfoRow("", "")])

  /** Tags as the form keeps them: non-empty, trimmed and without repeats. */
  predicate WellFormedTags(tags: seq<string>) {
    && (forall i :: 0 <= i < |tags| ==> tags[i] != "" && IsTrimmed(tags[i]))
    && (forall i, j :: 0 <= i < j < |tags| ==> tags[i] != tags[j])
  }

  /** `handleChange` on the scalar fields: only the named field changes. */
  function Changed(fields: map<string, FieldValue>, e: ChangeEvent): (r: map<string, FieldValue>)
    ensures e.name in r && r[e.name] == (if e.isCheckbox then Flag(e.checked) else Text(e.value))
    ensures forall k :: k != e.name ==> (k in r <==> k in fields)
    ensures forall k :: k in fields && k != e.name ==> r[k] == fields[k]
  {
    fields[e.name := if e.isCheckbox then Flag(e.checked) else Text(e.value)]
  }

  /**
   * `handleAddTag` on the tag list: the trimmed tag is appended when it is
   * non-empty and new; otherwise the list is unchanged.
   */
  function WithTag(tags: seq<string>, newTag: string): (r: seq<string>)
    ensures |tags| <= |r| <= |tags| + 1 && r[..|tags|] == tags
    ensures forall t :: t in r <==> t in tags || (t == Trim(newTag) && t != "")
    ensures WellFormedTags(tags) ==> WellFormedTags(r)
  {
    AppendNewTag(tags, Trim(newTag))
  }

  /** Appends an already trimmed tag unless it is empty or present. */
  function AppendNewTag(tags: seq<string>, tag: string): (r: seq<string>)
    requires IsTrimmed(tag)
    ensures |tags| <= |r| <= |tags| + 1 && r[..|tags|] == tags
    ensures forall t :: t in r <==> t in tags || (t == tag && t != "")
    ensures WellFormedTags(tags) ==> WellFormedTags(r)
  {
    if tag != "" && tag !in tags then
      var r := tags + [tag];
      assert r[..|tags|] == tags;
      assert WellFormedTags(tags) ==> WellFormedTags(r) by {
        if WellFormedTags(tags) {
          forall i, j | 0 <= i < j < |r| ensures r[i] != r[j] {
            if j == |tags| {
              assert r[i] in tags;
            }
          }
        }
      }
      r
    else tags
  }

  /** Whether `handleAddTag` takes the tag (and so clears the input). */
  predicate TagAccepted(tags: seq<string>, newTag: string) {
    Trim(newTag) != "" && Trim(newTag) !in tags
  }

  /** Adding the same tag twice has the effect of adding it once. */
  lemma WithTagIdempotent(tags: seq<string>, newTag: string)
    ensures WithTag(WithTag(tags, newTag), newTag) == WithTag(tags, newTag)
  {
  }

  /** A tag that is only whitespace is never added. */
  lemma BlankTagIgnored(tags: seq<string>, newTag: string)
    requires forall i :: 0 <= i < |newTag| ==> IsSpace(newTag[i])
    ensures WithTag(tags, newTag) == tags
  {
    BlankTrimsToEmpty(newTag);
  }

  lemma {:induction false} BlankTrimsToEmpty(s: string)
    requires forall i :: 0 <= i < |s| ==> IsSpace(s[i])
    ensures Trim(s) == ""
  {
    assert TrimStart(s) == [];
  }

  /** Removing a tag by position keeps the tag list well formed. */
  lemma RemoveTagKeepsWellFormed(tags: seq<string>, index: int)
    requires WellFormedTags(tags)
    ensures WellFormedTags(RemoveAt(tags, index))
  {
    var r := RemoveAt(tags, index);
    if 0 <= index < |tags| {
      forall i, j | 0 <= i < j < |r| ensures r[i] != r[j] {
        var i', j' := if i < index then i else i + 1, if j < index then j else j + 1;
        assert r[i] == tags[i'] && r[j] == tags[j'] && i' < j';
      }
    }
  }

  /** `handleAdditionalInfoChange`: sets one half of one row. */
  function WithRowField(rows: seq<InfoRow>, index: int, field: InfoField, value: string): (r: seq<InfoRow>)
    requires 0 <= index < |rows|
    ensures |r| == |rows|
    ensures forall i :: 0 <= i < |rows| && i != index ==> r[i] == rows[i]
    ensures field == KeyField ==> r[index] == InfoRow(value, rows[index].value)
    ensures field == ValueField ==> r[index] == InfoRow(rows[index].key, value)
  {
    var row := rows[index];
    rows[index := if field == KeyField then row.(key := value) else row.(value := value)]
  }

  /** The form's state: the draft, the tag input and the upload flag. */
  class AddProductForm {
    var product: Draft
    var newTag: string
    var uploading: bool

    /** The form keeps its tags well formed. */
    predicate Valid()
      reads this
    {
      WellFormedTags(product.tags)
    }

    constructor ()
      ensures Valid()
      ensures product == InitialDraft && newTag == "" && !uploading
    {
      product := InitialDraft;
      newTag := "";
      uploading := false;
    }

    /** `handleChange`: the input's `checked` for a checkbox, else its `value`. */
    method HandleChange(e: ChangeEvent)
      requires Valid()
      requires e.name !in ListFields
      modifies this
      ensures Valid()
      ensures product == old(product).(fields := Changed(old(product.fields), e))
      ensures newTag == old(newTag) && uploading == old(uploading)
    {
      product := product.(fields := product.fields[e.name := if e.isCheckbox then Flag(e.checked) else Text(e.value)]);
    }

    /** The tag input's `onChange`. */
    method SetNewTag(value: string)
      modifies this
      ensures newTag == value && product == old(product) && uploading == old(uploading)
    {
      newTag := value;
    }

    /**
     * `handleImageUpload`: nothing without a file; otherwise the host's URL
     * is appended on success, and either way the loader is off afterwards.
     */
    method HandleImageUpload(fileSelected: bool, response: UploadResponse)
      requires Valid()
      modifies this
      ensures Valid()
      ensures !fileSelected ==> product == old(product) && uploading == old(uploading)
      ensures fileSelected ==> !uploading
      ensures fileSelected && response.Uploaded? ==>
        product == old(product).(images := old(product.images) + [response.secureUrl])
      ensures fileSelected && response.UploadFailed? ==> product == old(product)
      ensures newTag == old(newTag)
    {
      if !fileSelected {
        return;
      }
      uploading := true;
      if response.Uploaded? {
        product := product.(images := product.images + [response.secureUrl]);
      }
      uploading := false;
    }

    /** `handleRemoveImage`: drops the image at `index`. */
    method HandleRemoveImage(index: int)
      requires Valid()
      modifies this
      ensures Valid()
      ensures product == old(product).(images := RemoveAt(old(product.images), index))
      ensures newTag == old(newTag) && uploading == old(uploading)
    {
      product := product.(images := RemoveAt(product.images, index));
    }

    /** `handleAdditionalInfoChange`: edits one half of row `index`. */
    method HandleAdditionalInfoChange(index: int, field: InfoField, value: string)
      requires Valid()
      requires 0 <= index < |product.additionalInfo|
      modifies this
      ensures Valid()
      ensures product == old(product).(additionalInfo := WithRowField(old(product.additionalInfo), index, field, value))
      ensures newTag == old(newTag) && uploading == old(uploading)
    {
      var updated := product.additionalInfo;
      if field == KeyField {
        updated := updated[index := updated[index].(key := value)];
      } else {
        updated := updated[index := updated[index].(value := value)];
      }
      product := product.(additionalInfo := updated);
    }

    /** `handleAddAdditionalInfo`: appends an empty row. */
    method HandleAddAdditionalInfo()
      requires Valid()
      modifies this
      ensures Valid()
      ensures product == old(product).(additionalInfo := old(product.additionalInfo) + [InfoRow("", "")])
      ensures newTag == old(newTag) && uploading == old(uploading)
    {
      product := product.(additionalInfo := product.additionalInfo + [InfoRow("", "")]);
    }

    /** The row's remove button: drops row `index`. */
    method HandleRemoveAdditionalInfo(index: int)
      requires Valid()
      modifies this
      ensures Valid()
      ensures product == old(product).(additionalInfo := RemoveAt(old(product.additionalInfo), index))
      ensures newTag == old(newTag) && uploading == old(uploading)
    {
      product := product.(additionalInfo := RemoveAt(product.additionalInfo, index));
    }

    /** `handleAddTag`: adds the trimmed tag if it is new and non-empty, then clears the input. */
    method HandleAddTag()
      requires Valid()
      modifies this
      ensures Valid()
      ensures product == old(product).(tags := WithTag(old(product.tags), old(newTag)))
      ensures newTag == if TagAccepted(old(product.tags), old(newTag)) then "" else old(newTag)
      ensures uploading == old(uploading)
    {
      if TagAccepted(product.tags, newTag) {
        product := product.(tags := WithTag(product.tags, newTag));
        newTag := "";
      }
    }

    /** `handleRemoveTag`: drops the tag at `index`. */
    method HandleRemoveTag(index: int)
      requires Valid()
      modifies this
      ensures Valid()
      ensures product == old(product).(tags := RemoveAt(old(product.tags), index))
      ensures newTag == old(newTag) && uploading == old(uploading)
    {
      RemoveTagKeepsWellFormed(product.tags, index);
      product := product.(tags := RemoveAt(product.tags, index));
    }

    /** `handleSubmit`: after the store accepts the draft, the form is reset. */
    method HandleSubmit(saved: bool)
      requires Valid()
      modifies this
      ensures Valid()
      ensures saved ==> product == InitialDraft
      ensures !saved ==> product == old(product)
      ensures newTag == old(newTag) && uploading == old(uploading)
    {
      if saved {
        product := InitialDraft;
      }
    }
  }
}
