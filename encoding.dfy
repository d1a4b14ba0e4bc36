/** The label encoder fitted during training (scikit-learn's
    `LabelEncoder`): its classes are the distinct labels in ascending
    code-point order, a label encodes to its index, and an index decodes
    back to the label. */
module LabelEncoding {
  import opened Wrappers
  import opened Errors

  /** Python's `<` on strings: lexicographic by code point. */
  predicate Below(a: string, b: string) {
    |b| > 0 && (|a| == 0 || a[0] < b[0] || (a[0] == b[0] && Below(a[1..], b[1..])))
  }

  lemma BelowIrreflexive(a: string)
    ensures !Below(a, a)
  {
  }

  lemma BelowTransitive(a: string, b: string, c: string)
    requires Below(a, b) && Below(b, c)
    ensures Below(a, c)
  {
  }

  lemma BelowTotal(a: string, b: string)
    requires a != b
    ensures Below(a, b) || Below(b, a)
  {
    if |a| > 0 && |b| > 0 && a[0] == b[0] {
      BelowTotal(a[1..], b[1..]);
    }
  }

  /** Strictly ascending, hence without duplicates. */
  ghost predicate StrictlySorted(xs: seq<string>) {
    forall i, j :: 0 <= i < j < |xs| ==> Below(xs[i], xs[j])
  }

  /** Adds `x` to a strictly ascending list at its place, unless it is already there. */
  function Insert(xs: seq<string>, x: string): (r: seq<string>)
    requires StrictlySorted(xs)
    ensures StrictlySorted(r)
    ensures forall y :: y in r <==> y in xs || y == x
  {
    if xs == [] then [x]
    else if x == xs[0] then xs
    else if Below(x, xs[0]) then
      assert forall j :: 0 <= j < |xs| ==> Below(x, xs[j]) by {
        forall j | 0 <= j < |xs| ensures Below(x, xs[j]) {
          if j > 0 { BelowTransitive(x, xs[0], xs[j]); }
        }
      }
      [x] + xs
    else
      BelowTotal(x, xs[0]);
      var rest := Insert(xs[1..], x);
      assert forall y :: y in rest ==> Below(xs[0], y) by {
        forall y | y in rest ensures Below(xs[0], y) {
          if y != x {
            var j :| 1 <= j < |xs| && xs[j] == y;
          }
        }
      }
      [xs[0]] + rest
  }

  /** `LabelEncoder.fit(labels).classes_`: the distinct labels, ascending. */
  function Classes(labels: seq<string>): (classes: seq<string>)
    ensures StrictlySorted(classes)
    ensures forall l :: l in classes <==> l in labels
  {
    if labels == [] then [] else Insert(Classes(labels[1..]), labels[0])
  }

  /** `transform` of one label: its index among the classes, if it is one. */
  function Encode(classes: seq<string>, name: string): (r: Option<nat>)
    ensures r.Some? ==> r.value < |classes| && classes[r.value] == name
    ensures r.None? ==> name !in classes
  {
    if classes == [] then None
    else if classes[0] == name then Some(0)
    else match Encode(classes[1..], name)
      case None => None
      case Some(k) => Some(k + 1)
  }

  /** `inverse_transform` of one index; an index outside the classes is the
      "previously unseen labels" error. */
  function Decode(classes: seq<string>, index: int): (r: Result<string, Error>)
    ensures r.Ok? ==> r.value in classes
    ensures r.Err? <==> !(0 <= index < |classes|)
  {
    if 0 <= index < |classes| then Ok(classes[index]) else Err(UnseenLabel(index))
  }

  /** `fit_transform`: the class table and every label's code. */
  function FitTransform(labels: seq<string>): (r: (seq<string>, seq<nat>))
    ensures r.0 == Classes(labels) && |r.1| == |labels|
    ensures forall k :: 0 <= k < |labels| ==> Decode(r.0, r.1[k]) == Ok(labels[k])
  {
    var classes := Classes(labels);
    (classes, seq(|labels|, k requires 0 <= k < |labels| => Encode(classes, labels[k]).value))
  }

  /** Decoding an encoded label gives the label back. */
  lemma DecodeEncode(classes: seq<string>, name: string)
    requires name in classes
    ensures Encode(classes, name).Some?
    ensures Decode(classes, Encode(classes, name).value) == Ok(name)
  {
  }

  /** Encoding a decoded index gives the index back: the classes have no duplicates. */
  lemma {:induction false} EncodeDecode(classes: seq<string>, index: nat)
    requires StrictlySorted(classes) && index < |classes|
    ensures Encode(classes, classes[index]) == Some(index)
  {
    if index == 0 {
    } else {
      assert classes[0] != classes[index] by {
        BelowIrreflexive(classes[0]);
      }
      assert StrictlySorted(classes[1..]);
      EncodeDecode(classes[1..], index - 1);
    }
  }

  /** The two labels of a well-formed store get codes 0 (`Malicious`) and 1 (`Safe`). */
  lemma TwoLabelTable()
    ensures Classes(["Safe", "Malicious"]) == ["Malicious", "Safe"]
  {
    assert Below("Malicious", "Safe");
  }
}
