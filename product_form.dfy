/** The product form (`ProductDialog`): a draft of six text fields, seeded from the
    product being edited or blank, edited one field at a time, and packaged into a
    request payload on submit. */
module ProductForm {
  import opened Wrappers
  import opened Strings
  import opened Numbers
  import opened Catalog
  import opened DashboardView

  /** `FormData`: what the six inputs hold. */
  datatype FormData = FormData(
    nome: string,
    descricao: string,
    preco: string,
    quantidadeEmEstoque: string,
    dataDeValidade: string,
    categoriaId: string)

  /** The `name` attribute of an input. */
  datatype Field = Nome | Descricao | Preco | QuantidadeEmEstoque | DataDeValidade | CategoriaId

  function Get(d: FormData, f: Field): string
  {
    match f
    case Nome => d.nome
    case Descricao => d.descricao
    case Preco => d.preco
    case QuantidadeEmEstoque => d.quantidadeEmEstoque
    case DataDeValidade => d.dataDeValidade
    case CategoriaId => d.categoriaId
  }

  /** `{...prev, [name]: value}`. */
  function WithField(d: FormData, f: Field, v: string): (r: FormData)
    ensures Get(r, f) == v
    ensures forall g :: g != f ==> Get(r, g) == Get(d, g)
  {
    match f
    case Nome => d.(nome := v)
    case Descricao => d.(descricao := v)
    case Preco => d.(preco := v)
    case QuantidadeEmEstoque => d.(quantidadeEmEstoque := v)
    case DataDeValidade => d.(dataDeValidade := v)
    case CategoriaId => d.(categoriaId := v)
  }

  /** `initialState`: every field empty. */
  const InitialState := FormData("", "", "", "", "", "")

  lemma InitialStateBlank()
    ensures forall f :: Get(InitialState, f) == ""
  {
    forall f ensures Get(InitialState, f) == "" {
      match f
      case Nome =>
      case Descricao =>
      case Preco =>
      case QuantidadeEmEstoque =>
      case DataDeValidade =>
      case CategoriaId =>
    }
  }

  /** `dataDeValidade.split('T')[0]` for a non-empty date, '' for an empty one. */
  function DatePart(date: string): (r: string)
    ensures |r| <= |date| && r == date[..|r|] && 'T' !in r
    ensures |r| < |date| ==> date[|r|] == 'T'
  {
    if date == "" then "" else PrefixBefore(date, 'T')
  }

  /** For an RFC 3339 date-time (section 5.6), a full-date, 'T', then a time,
      the seeded date is the full-date. */
  lemma DatePartOfDateTime(fullDate: string, time: string)
    requires 'T' !in fullDate
    ensures DatePart(fullDate + "T" + time) == fullDate
  {
    PrefixBeforeJoin(fullDate, 'T', time);
  }

  /** The draft for editing `p`: names copied, numbers as text, the date part of
      the expiry date, and the category's id. */
  function Seed(p: Product): (d: FormData)
    ensures d.nome == p.nome && d.descricao == p.descricao
    ensures d.dataDeValidade == DatePart(p.dataDeValidade)
    ensures ParsePrice(d.preco) == Some(p.preco)
    ensures ParseInt(d.quantidadeEmEstoque) == Some(p.quantidadeEmEstoque)
    ensures ParseInt(d.categoriaId) == Some(p.categoria.id)
  {
    FormData(
      p.nome,
      p.descricao,
      PriceToString(p.preco),
      IntToString(p.quantidadeEmEstoque),
      DatePart(p.dataDeValidade),
      IntToString(p.categoria.id))
  }

  /** The draft the seeding effect sets: the product's, or the blank one. */
  /** A blank draft cannot be submitted; a seeded one can exactly when the product
      has a name and a non-empty date part, since its numbers always have text. */
  function FormFor(product: Option<Product>): (d: FormData)
    ensures product.None? ==> (forall f :: Get(d, f) == "") && !IsValid(d)
    ensures product.Some? ==> (IsValid(d) <==> product.value.nome != "" && DatePart(product.value.dataDeValidade) != "")
  {
    match product
    case Some(p) => Seed(p)
    case None => InitialStateBlank(); InitialState
  }

  /** `isValid`: every field but the description is filled in. */
  predicate IsValid(d: FormData): (b: bool)
    ensures b <==> forall f :: f != Descricao ==> Get(d, f) != ""
  {
    RequiredFieldsFilled(d);
    d.nome != "" && d.preco != "" && d.quantidadeEmEstoque != "" && d.dataDeValidade != "" && d.categoriaId != ""
  }

  lemma RequiredFieldsFilled(d: FormData)
    ensures (d.nome != "" && d.preco != "" && d.quantidadeEmEstoque != "" && d.dataDeValidade != "" && d.categoriaId != "")
        <==> forall f :: f != Descricao ==> Get(d, f) != ""
  {
    if d.nome != "" && d.preco != "" && d.quantidadeEmEstoque != "" && d.dataDeValidade != "" && d.categoriaId != "" {
      forall f | f != Descricao ensures Get(d, f) != "" {
        match f
        case Nome =>
        case Preco =>
        case QuantidadeEmEstoque =>
        case DataDeValidade =>
        case CategoriaId =>
      }
    } else {
      assert Get(d, Nome) == "" || Get(d, Preco) == "" || Get(d, QuantidadeEmEstoque) == ""
          || Get(d, DataDeValidade) == "" || Get(d, CategoriaId) == "";
    }
  }

  /** Editing the description never changes whether the form can be submitted. */
  lemma DescriptionOptional(d: FormData, v: string)
    ensures IsValid(WithField(d, Descricao, v)) == IsValid(d)
  {
  }

  /** The payload `handleSubmit` builds: texts copied, numbers parsed, the category
      wrapped as its id. */
  function ToPayload(d: FormData): (r: ProductPayload)
    ensures r.nome == d.nome && r.descricao == d.descricao && r.dataDeValidade == d.dataDeValidade
  {
    ProductPayload(
      d.nome,
      d.descricao,
      ParsePrice(d.preco),
      ParseInt(d.quantidadeEmEstoque),
      d.dataDeValidade,
      ParseInt(d.categoriaId))
  }

  /** Submitting an untouched draft of `p` sends back `p`'s own values: the
      text forms of its numbers parse back to the same numbers. */
  lemma SeedPayloadRoundTrip(p: Product)
    ensures ToPayload(Seed(p))
         == ProductPayload(p.nome, p.descricao, Some(p.preco), Some(p.quantidadeEmEstoque),
                           DatePart(p.dataDeValidade), Some(p.categoria.id))
  {
  }

  /** The categories offered in the form: all but those with id 0, in order. */
  function CategoryOptions(cs: seq<Categoria>): (r: seq<Categoria>)
    ensures |r| <= |cs|
    ensures forall i :: 0 <= i < |r| ==> r[i].id != 0 && r[i] in cs
    ensures IsSubsequence(r, cs)
  {
    if cs == [] then []
    else if cs[0].id != 0 then [cs[0]] + CategoryOptions(cs[1..])
    else CategoryOptions(cs[1..])
  }

  /** Each category with a non-zero id is offered as often as it is given; one
      with id 0 never is. */
  lemma {:induction false} CategoryOptionsCounts(cs: seq<Categoria>, c: Categoria)
    ensures multiset(CategoryOptions(cs))[c] == if c.id != 0 then multiset(cs)[c] else 0
  {
    if cs != [] {
      CategoryOptionsCounts(cs[1..], c);
      assert cs == [cs[0]] + cs[1..];
      assert multiset(cs) == multiset([cs[0]]) + multiset(cs[1..]);
      if cs[0].id != 0 {
        assert CategoryOptions(cs) == [cs[0]] + CategoryOptions(cs[1..]);
      } else {
        assert CategoryOptions(cs) == CategoryOptions(cs[1..]);
      }
    }
  }

  /** Every category with a non-zero id is offered. */
  lemma {:induction false} CategoryOptionsComplete(cs: seq<Categoria>, c: Categoria)
    requires c in cs && c.id != 0
    ensures c in CategoryOptions(cs)
  {
    if cs[0] != c {
      CategoryOptionsComplete(cs[1..], c);
    }
  }

  /** The filter sentinel is never offered: the options for the loaded category list
      are those for the fetched categories, and are all of them when none has id 0. */
  lemma {:induction false} CategoryOptionsDropSentinel(fetched: seq<Categoria>)
    ensures CategoryOptions(WithSentinel(fetched)) == CategoryOptions(fetched)
    ensures (forall i :: 0 <= i < |fetched| ==> fetched[i].id != 0) ==> CategoryOptions(fetched) == fetched
  {
    assert WithSentinel(fetched)[1..] == fetched;
    if fetched != [] {
      CategoryOptionsDropSentinel(fetched[1..]);
    }
  }

  /** What the form asks its parent to do, in order. */
  datatype Callback = OnSave(payload: ProductPayload) | OnClose

  class ProductDialog {
    var formData: FormData
    /** The `product` and `open` props of the last render. */
    var renderedProduct: Option<Product>
    var renderedOpen: bool

    /** Mounting: the blank state, then the seeding effect. */
    constructor (product: Option<Product>, open: bool)
      ensures formData == FormFor(product)
      ensures renderedProduct == product && renderedOpen == open
    {
      formData := FormFor(product);
      renderedProduct, renderedOpen := product, open;
    }

    /** A render with new props: the seeding effect runs only when the product or
        the open flag changed, so an edit in progress survives other renders. */
    method Rerender(product: Option<Product>, open: bool)
      modifies this
      ensures product == old(renderedProduct) && open == old(renderedOpen) ==> formData == old(formData)
      ensures product != old(renderedProduct) || open != old(renderedOpen) ==> formData == FormFor(product)
      ensures renderedProduct == product && renderedOpen == open
    {
      if product != renderedProduct || open != renderedOpen {
        formData := FormFor(product);
      }
      renderedProduct, renderedOpen := product, open;
    }

    /** A render as the component is written: its effect also depends on
        `initialState`, a new object on every render, so it re-seeds every time. */
    method RerenderAsWritten(product: Option<Product>, open: bool)
      modifies this
      ensures formData == FormFor(product)
      ensures renderedProduct == product && renderedOpen == open
    {
      formData := FormFor(product);
      renderedProduct, renderedOpen := product, open;
    }

    /** `handleChange`: the named field takes the typed value; the others keep theirs. */
    method HandleChange(f: Field, v: string)
      modifies this`formData
      ensures Get(formData, f) == v
      ensures forall g :: g != f ==> Get(formData, g) == Get(old(formData), g)
    {
      formData := WithField(formData, f, v);
    }

    /** The submit button is enabled exactly when the draft is valid. */
    function SubmitEnabled(): (b: bool)
      reads this
      ensures b <==> forall f :: f != Descricao ==> Get(formData, f) != ""
      ensures b ==> ToPayload(formData).nome != "" && ToPayload(formData).dataDeValidade != ""
    {
      IsValid(formData)
    }

    /** `handleSubmit`: save the packaged draft, then close. */
    method Submit() returns (callbacks: seq<Callback>)
      ensures |callbacks| == 2 && callbacks[1] == OnClose
      ensures callbacks[0].OnSave?
      ensures callbacks[0].payload.nome == formData.nome
      ensures callbacks[0].payload.descricao == formData.descricao
      ensures callbacks[0].payload.dataDeValidade == formData.dataDeValidade
      ensures callbacks[0].payload.preco == ParsePrice(formData.preco)
      ensures callbacks[0].payload.quantidadeEmEstoque == ParseInt(formData.quantidadeEmEstoque)
      ensures callbacks[0].payload.categoriaId == ParseInt(formData.categoriaId)
      ensures SubmitEnabled() ==> callbacks[0].payload.nome != "" && callbacks[0].payload.dataDeValidade != ""
    {
      callbacks := [OnSave(ToPayload(formData)), OnClose];
    }
  }

  /** Typing a name into a blank form and rendering again keeps the name. */
  method TypedNameKept() returns (nome: string)
    ensures nome == "Leite"
  {
    var dialog := new ProductDialog(None, true);
    dialog.HandleChange(Nome, "Leite");
    dialog.Rerender(None, true);
    nome := dialog.formData.nome;
  }

  /** As written, the render that follows typing a name re-seeds the form and the
      name is gone. */
  method TypedNameLostAsWritten() returns (nome: string)
    ensures nome == ""
  {
    var dialog := new ProductDialog(None, true);
    dialog.HandleChange(Nome, "Leite");
    dialog.RerenderAsWritten(None, true);
    nome := dialog.formData.nome;
  }
}
