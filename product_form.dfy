/** The seller's product form: the editable fields as text, the list of image
    URLs with its add/change/remove controls, the prefill from a product being
    edited, and the record handed to the store on submit. */
module ProductForm {
  import opened Collections
  import opened AppStore

  /** The form state; price and stock are the raw text of their inputs. */
  datatype FormData = FormData(
    name: string, description: string, price: string, category: string,
    subcategory: string, brand: string, images: seq<string>, stock: string)

  /** A new form: every field empty and one empty image field. */
  const EmptyForm: FormData := FormData("", "", "", "", "", "", [""], "")

  /** The edit prefill; `showPrice` and `showStock` stand for `toString` on the numbers. */
  function Prefill(p: Product, showPrice: int -> string, showStock: int -> string): (r: FormData)
    ensures r.name == p.name && r.description == p.description && r.brand == p.brand
    ensures r.category == p.category && r.subcategory == p.subcategory && r.images == p.images
    ensures r.price == showPrice(p.price) && r.stock == showStock(p.stock)
  {
    FormData(p.name, p.description, showPrice(p.price), p.category, p.subcategory, p.brand,
             p.images, showStock(p.stock))
  }

  /** `handleImageChange`: only the entry at `index` takes the new value; an index
      outside the list changes nothing. */
  function ChangeImage(f: FormData, index: int, value: string): (r: FormData)
    ensures |r.images| == |f.images|
    ensures forall i :: 0 <= i < |f.images| ==> r.images[i] == if i == index then value else f.images[i]
    ensures r.(images := f.images) == f
  {
    f.(images := seq(|f.images|, i requires 0 <= i < |f.images| => if i == index then value else f.images[i]))
  }

  /** `addImageField`: one more, empty, entry at the end. */
  function AddImageField(f: FormData): (r: FormData)
    ensures r.images == f.images + [""]
    ensures r.(images := f.images) == f
  {
    f.(images := f.images + [""])
  }

  /** `removeImageField`: the entry at `index` is gone and the others keep their order;
      an index outside the list changes nothing. */
  function RemoveImageField(f: FormData, index: int): (r: FormData)
    ensures 0 <= index < |f.images| ==> |r.images| == |f.images| - 1
    ensures 0 <= index < |f.images| ==> forall i :: 0 <= i < |r.images| ==>
              r.images[i] == if i < index then f.images[i] else f.images[i + 1]
    ensures !(0 <= index < |f.images|) ==> r == f
    ensures r.(images := f.images) == f
  {
    if 0 <= index < |f.images| then f.(images := f.images[..index] + f.images[index + 1..]) else f
  }

  /** Removing the field just added gives back the form. */
  lemma AddThenRemoveImageField(f: FormData)
    ensures RemoveImageField(AddImageField(f), |f.images|) == f
  {
    assert (f.images + [""])[..|f.images|] == f.images;
  }

  /** Writing back the old value of an entry undoes a change. */
  lemma ChangeImageUndo(f: FormData, index: int, value: string)
    requires 0 <= index < |f.images|
    ensures ChangeImage(ChangeImage(f, index, value), index, f.images[index]) == f
  {
    var g := ChangeImage(ChangeImage(f, index, value), index, f.images[index]);
    assert g.images == f.images;
  }

  /** The characters JavaScript's `trim` removes: white space and line terminators. */
  predicate TrimmedChar(c: char) {
    var n := c as int;
    n == 0x09 || n == 0x0A || n == 0x0B || n == 0x0C || n == 0x0D || n == 0x20 ||
    n == 0xA0 || n == 0x1680 || (0x2000 <= n <= 0x200A) || n == 0x2028 || n == 0x2029 ||
    n == 0x202F || n == 0x205F || n == 0x3000 || n == 0xFEFF
  }

  /** `s.trim() === ''`: nothing but trimmed characters. */
  predicate Blank(s: string) {
    forall i :: 0 <= i < |s| ==> TrimmedChar(s[i])
  }

  /** The images submitted: the non-blank entries, in order. */
  function SubmittedImages(images: seq<string>): (r: seq<string>)
    ensures forall i :: 0 <= i < |r| ==> r[i] in images && !Blank(r[i])
    ensures forall i :: 0 <= i < |images| && !Blank(images[i]) ==> images[i] in r
  {
    Filter(images, (s: string) => !Blank(s))
  }

  /** An added, still empty, image field is not submitted. */
  lemma EmptyFieldNotSubmitted(f: FormData)
    ensures SubmittedImages(AddImageField(f).images) == SubmittedImages(f.images)
  {
    FilterAppend(f.images, [""], (s: string) => !Blank(s));
  }

  /** `productData`: the text fields as typed, price and stock parsed (`parsePrice`, `parseStock`
      stand for `parseFloat` and `parseInt`), the non-blank images, the edited product's rating
      and review count or 0 for a new one, and the current user as seller. */
  function BuildDraft(f: FormData, editing: Option<Product>, user: User,
                      parsePrice: string -> int, parseStock: string -> int): (r: ProductDraft)
    ensures r.sellerId == user.id
    ensures r.images == SubmittedImages(f.images)
    ensures r.rating == (if editing.Some? then editing.value.rating else 0.0)
    ensures r.reviewCount == (if editing.Some? then editing.value.reviewCount else 0)
    ensures r.price == parsePrice(f.price) && r.stock == parseStock(f.stock)
    ensures r.name == f.name && r.description == f.description && r.brand == f.brand
    ensures r.category == f.category && r.subcategory == f.subcategory
  {
    ProductDraft(f.name, f.description, parsePrice(f.price), f.category, f.subcategory, f.brand,
                 SubmittedImages(f.images), stock := parseStock(f.stock),
                 rating := if editing.Some? then editing.value.rating else 0.0,
                 reviewCount := if editing.Some? then editing.value.reviewCount else 0,
                 sellerId := user.id)
  }

  /** What submit asks the store to do. */
  datatype Submission = Update(id: string, patch: ProductPatch) | Add(draft: ProductDraft)

  /** Exactly one of update (with the edited product's id) or add. */
  function Submit(f: FormData, editing: Option<Product>, user: User,
                  parsePrice: string -> int, parseStock: string -> int): (r: Submission)
    ensures r.Update? <==> editing.Some?
    ensures r.Update? ==> r.id == editing.value.id && r.patch.id.None?
    ensures var d := BuildDraft(f, editing, user, parsePrice, parseStock);
            (r.Update? ==> r.patch == DraftPatch(d)) && (r.Add? ==> r.draft == d)
  {
    var d := BuildDraft(f, editing, user, parsePrice, parseStock);
    if editing.Some? then Update(editing.value.id, DraftPatch(d)) else Add(d)
  }

  /** Submitting an untouched edit form leaves the product as it was, provided the number
      formatting round-trips, no image is blank and the product is the user's. */
  lemma UntouchedEditKeepsProduct(p: Product, user: User,
                                  showPrice: int -> string, showStock: int -> string,
                                  parsePrice: string -> int, parseStock: string -> int)
    requires parsePrice(showPrice(p.price)) == p.price && parseStock(showStock(p.stock)) == p.stock
    requires forall i :: 0 <= i < |p.images| ==> !Blank(p.images[i])
    requires p.sellerId == user.id
    ensures var s := Submit(Prefill(p, showPrice, showStock), Some(p), user, parsePrice, parseStock);
            s.Update? && s.id == p.id && Merge(p, s.patch) == p
  {
    FilterAllKept(p.images, (s: string) => !Blank(s));
  }

  /** Applies the submission to the store; `newId` is the id `addProduct` generates. */
  method SubmitTo(store: Store, f: FormData, editing: Option<Product>, user: User,
                  parsePrice: string -> int, parseStock: string -> int, newId: string)
    modifies store`products
    ensures var d := BuildDraft(f, editing, user, parsePrice, parseStock);
            store.products == if editing.Some? then PatchProducts(old(store.products), editing.value.id, DraftPatch(d))
                              else old(store.products) + [WithId(d, newId)]
  {
    match Submit(f, editing, user, parsePrice, parseStock)
    case Update(id, patch) => store.UpdateProduct(id, patch);
    case Add(draft) => store.AddProduct(draft, newId);
  }
}
