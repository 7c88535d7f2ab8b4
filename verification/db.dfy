/**
  The PostgreSQL database behind the ORM, as one object whose tables the routes
  and the seed script update in place. Each insert or update method is one SQL
  statement: it either applies completely or, when a constraint declared in the
  schema is violated (a foreign key, the integer type of a column, the unique
  email), changes nothing and reports the failure, which the ORM surfaces as a
  thrown error.
*/
module Db {
  import opened Wrappers
  import opened Schema

  /** The values a route passes to `insert(vendas)`; `None` leaves a column to its default. */
  datatype NovaVenda = NovaVenda(
    clienteId: Option<int>,
    usuarioId: int,
    dataVenda: Option<int>,
    status: Option<VendaStatus>,
    subtotal: real,
    desconto: real,
    total: real,
    formaPagamento: Option<FormaPagamento>,
    observacoes: Option<string>)

  /** The values passed to `insert(itensVenda)`: the quantity is still a JSON number. */
  datatype NovoItemVenda = NovoItemVenda(vendaId: int, produtoId: int, quantidade: real, precoUnitario: real, desconto: real, subtotal: real)

  datatype NovaContaReceber = NovaContaReceber(clienteId: Option<int>, vendaId: Option<int>, valor: real, dataVencimento: int, status: Option<ContaStatus>)

  /** The row stored for `ni` under the serial id `id`: the integer column keeps the whole part. */
  function StoredItem(id: int, ni: NovoItemVenda): ItemVenda {
    ItemVenda(id, ni.vendaId, ni.produtoId, ni.quantidade.Floor, ni.precoUnitario, ni.desconto, ni.subtotal)
  }

  /** The rows of a multi-row insert, ids allocated from `firstId` on in the order given. */
  function StoredItems(firstId: int, nis: seq<NovoItemVenda>): (r: seq<ItemVenda>)
    ensures |r| == |nis|
  {
    if nis == [] then [] else StoredItems(firstId, nis[..|nis| - 1]) + [StoredItem(firstId + |nis| - 1, nis[|nis| - 1])]
  }

  /** Row `k` of a multi-row insert is item `k` stored under id `firstId + k`. */
  lemma {:induction false} StoredItemsAt(firstId: int, nis: seq<NovoItemVenda>)
    ensures forall k | 0 <= k < |nis| :: StoredItems(firstId, nis)[k] == StoredItem(firstId + k, nis[k])
  {
    if nis != [] {
      StoredItemsAt(firstId, nis[..|nis| - 1]);
    }
  }

  lemma StoredItemsStep(firstId: int, nis: seq<NovoItemVenda>, i: nat)
    requires i < |nis|
    ensures StoredItems(firstId, nis[..i + 1]) == StoredItems(firstId, nis[..i]) + [StoredItem(firstId + i, nis[i])]
  {
    assert nis[..i + 1][..i] == nis[..i];
  }

  lemma AppendAssoc<T>(a: seq<T>, b: seq<T>, c: seq<T>)
    ensures a + (b + c) == (a + b) + c
  {
  }

  /** An `integer` column accepts a number only when it has no fractional part. */
  predicate IsInteger(x: real) {
    x == x.Floor as real
  }

  class Database {
    var usuarios: seq<Usuario>
    var clientes: map<int, Cliente>
    var fornecedores: map<int, Fornecedor>
    var produtos: map<int, Produto>
    var vendas: seq<Venda>
    var itensVenda: seq<ItemVenda>
    var contasPagar: seq<ContaPagar>
    var contasReceber: seq<ContaReceber>
    // next values of the serial id sequences
    var nextUsuarioId: int
    var nextVendaId: int
    var nextItemId: int
    var nextContaReceberId: int

    function UsuarioIds(): set<int>
      reads this`usuarios
    {
      set i | 0 <= i < |usuarios| :: usuarios[i].id
    }

    function VendaIds(): set<int>
      reads this`vendas
    {
      set i | 0 <= i < |vendas| :: vendas[i].id
    }

    /** Foreign keys of a sale: the user must exist, the customer may be null. */
    predicate VendaRefsOk(clienteId: Option<int>, usuarioId: int)
      reads this`usuarios, this`clientes
    {
      usuarioId in UsuarioIds() && (clienteId.Some? ==> clienteId.value in clientes)
    }

    /** Foreign keys of a receivable: both references are optional. */
    predicate ContaReceberRefsOk(clienteId: Option<int>, vendaId: Option<int>)
      reads this`clientes, this`vendas
    {
      (clienteId.Some? ==> clienteId.value in clientes) && (vendaId.Some? ==> vendaId.value in VendaIds())
    }

    /** Whether an item row can be stored: both references resolve and the quantity is an integer. */
    predicate ItemStorable(produtoId: int, vendaId: int, quantidade: real)
      reads this`vendas, this`produtos
    {
      vendaId in VendaIds() && produtoId in produtos && IsInteger(quantidade)
    }

    /** Referential integrity, unique emails and serial ids below the next sequence value. */
    ghost predicate Valid()
      reads this
    {
      UsuariosOk() && KeyedOk() && VendasOk() && ItensOk() && ContasReceberOk()
    }

    ghost predicate UsuariosOk()
      reads this`usuarios, this`nextUsuarioId
    {
      && 0 < nextUsuarioId
      && (forall i | 0 <= i < |usuarios| :: 0 < usuarios[i].id < nextUsuarioId)
      && (forall i, j | 0 <= i < j < |usuarios| :: usuarios[i].email != usuarios[j].email)
    }

    /** The customer and product maps are keyed by their rows' ids. */
    ghost predicate KeyedOk()
      reads this`clientes, this`produtos
    {
      && (forall id | id in clientes :: clientes[id].id == id)
      && (forall id | id in produtos :: produtos[id].id == id)
    }

    ghost predicate VendasOk()
      reads this`vendas, this`nextVendaId, this`usuarios, this`clientes
    {
      && 0 < nextVendaId
      && (forall i | 0 <= i < |vendas| ::
            0 < vendas[i].id < nextVendaId && VendaRefsOk(vendas[i].clienteId, vendas[i].usuarioId))
    }

    ghost predicate ItensOk()
      reads this`itensVenda, this`nextItemId, this`vendas, this`produtos
    {
      && 0 < nextItemId
      && (forall i | 0 <= i < |itensVenda| ::
            0 < itensVenda[i].id < nextItemId
            && itensVenda[i].vendaId in VendaIds() && itensVenda[i].produtoId in produtos)
    }

    ghost predicate ContasReceberOk()
      reads this`contasReceber, this`nextContaReceberId, this`clientes, this`vendas
    {
      && 0 < nextContaReceberId
      && (forall i | 0 <= i < |contasReceber| ::
            0 < contasReceber[i].id < nextContaReceberId
            && ContaReceberRefsOk(contasReceber[i].clienteId, contasReceber[i].vendaId))
    }

    /** A database holding the given customers, suppliers and products and no other rows. */
    constructor (clientes: map<int, Cliente>, fornecedores: map<int, Fornecedor>, produtos: map<int, Produto>)
      requires forall id | id in clientes :: clientes[id].id == id
      requires forall id | id in produtos :: produtos[id].id == id
      ensures Valid()
      ensures this.clientes == clientes && this.fornecedores == fornecedores && this.produtos == produtos
      ensures usuarios == [] && vendas == [] && itensVenda == [] && contasPagar == [] && contasReceber == []
    {
      this.clientes := clientes;
      this.fornecedores := fornecedores;
      this.produtos := produtos;
      usuarios, vendas, itensVenda, contasPagar, contasReceber := [], [], [], [], [];
      nextUsuarioId, nextVendaId, nextItemId, nextContaReceberId := 1, 1, 1, 1;
    }

    /**
      `insert(usuarios)`: refused when the name or the email is too long for
      its varchar(255) column or the email is taken; role defaults to
      vendedor, ativo to true.
    */
    method InsertUsuario(nome: string, email: string, senhaHash: string, role: Option<UserRole>) returns (r: Option<Usuario>)
      requires Valid()
      modifies this`usuarios, this`nextUsuarioId
      ensures Valid()
      ensures r.Some? <==> UsuarioFits(nome, email) && forall i | 0 <= i < |old(usuarios)| :: old(usuarios)[i].email != email
      ensures r.Some? ==>
                && r.value == Usuario(old(nextUsuarioId), nome, email, senhaHash, role.GetOr(DefaultRole), true)
                && usuarios == old(usuarios) + [r.value]
                && nextUsuarioId == old(nextUsuarioId) + 1
      ensures r.None? ==> usuarios == old(usuarios) && nextUsuarioId == old(nextUsuarioId)
    {
      if !UsuarioFits(nome, email) {
        return None;
      }
      var i := 0;
      while i < |usuarios|
        invariant 0 <= i <= |usuarios|
        invariant forall k | 0 <= k < i :: usuarios[k].email != email
      {
        if usuarios[i].email == email {
          return None;
        }
        i := i + 1;
      }
      var u := Usuario(nextUsuarioId, nome, email, senhaHash, role.GetOr(DefaultRole), true);
      usuarios := usuarios + [u];
      nextUsuarioId := nextUsuarioId + 1;
      assert forall i | 0 <= i < |vendas| :: vendas[i].usuarioId in UsuarioIds() by {
        forall i | 0 <= i < |vendas| ensures vendas[i].usuarioId in UsuarioIds() {
          assert vendas[i].usuarioId in old(UsuarioIds());
          var j :| 0 <= j < |old(usuarios)| && old(usuarios)[j].id == vendas[i].usuarioId;
          assert usuarios[j] == old(usuarios)[j];
        }
      }
      r := Some(u);
    }

    /** `insert(vendas)`: refused when a foreign key does not resolve; status defaults to aberta. */
    method InsertVenda(nv: NovaVenda, now: int) returns (r: Option<Venda>)
      requires Valid()
      modifies this`vendas, this`nextVendaId
      ensures Valid()
      ensures r.Some? <==> VendaRefsOk(nv.clienteId, nv.usuarioId)
      ensures r.Some? ==>
                && r.value == Venda(old(nextVendaId), nv.clienteId, nv.usuarioId, nv.dataVenda.GetOr(now),
                                    nv.status.GetOr(DefaultVendaStatus), nv.subtotal, nv.desconto, nv.total,
                                    nv.formaPagamento, nv.observacoes)
                && vendas == old(vendas) + [r.value]
                && nextVendaId == old(nextVendaId) + 1
                && r.value.id in VendaIds()
      ensures r.None? ==> vendas == old(vendas) && nextVendaId == old(nextVendaId)
      ensures old(VendaIds()) <= VendaIds()
    {
      if !VendaRefsOk(nv.clienteId, nv.usuarioId) {
        return None;
      }
      var v := Venda(nextVendaId, nv.clienteId, nv.usuarioId, nv.dataVenda.GetOr(now),
                     nv.status.GetOr(DefaultVendaStatus), nv.subtotal, nv.desconto, nv.total,
                     nv.formaPagamento, nv.observacoes);
      ghost var oldIds := VendaIds();
      vendas := vendas + [v];
      nextVendaId := nextVendaId + 1;
      assert vendas[|vendas| - 1].id == v.id;
      assert oldIds <= VendaIds() by {
        forall id | id in oldIds ensures id in VendaIds() {
          var j :| 0 <= j < |old(vendas)| && old(vendas)[j].id == id;
          assert vendas[j] == old(vendas)[j];
        }
      }
      r := Some(v);
    }

    /** `insert(itensVenda)` of one row: refused on a dangling reference or a fractional quantity. */
    method InsertItem(ni: NovoItemVenda) returns (r: Option<ItemVenda>)
      requires Valid()
      modifies this`itensVenda, this`nextItemId
      ensures Valid()
      ensures r.Some? <==> ItemStorable(ni.produtoId, ni.vendaId, ni.quantidade)
      ensures r.Some? ==>
                && r.value == StoredItem(old(nextItemId), ni)
                && itensVenda == old(itensVenda) + [r.value]
                && nextItemId == old(nextItemId) + 1
      ensures r.None? ==> itensVenda == old(itensVenda) && nextItemId == old(nextItemId)
    {
      if !ItemStorable(ni.produtoId, ni.vendaId, ni.quantidade) {
        return None;
      }
      var row := StoredItem(nextItemId, ni);
      itensVenda := itensVenda + [row];
      nextItemId := nextItemId + 1;
      r := Some(row);
    }

    /** The constraint check of a multi-row insert: every row must be storable. */
    method AllStorable(nis: seq<NovoItemVenda>) returns (ok: bool)
      ensures ok <==> forall i | 0 <= i < |nis| :: ItemStorable(nis[i].produtoId, nis[i].vendaId, nis[i].quantidade)
    {
      for i := 0 to |nis|
        invariant forall j | 0 <= j < i :: ItemStorable(nis[j].produtoId, nis[j].vendaId, nis[j].quantidade)
      {
        if !ItemStorable(nis[i].produtoId, nis[i].vendaId, nis[i].quantidade) {
          return false;
        }
      }
      return true;
    }

    /**
      A multi-row `insert(itensVenda).values([...])`: one statement, so either
      every row is stored or, when any row is refused, none is.
    */
    method InsertItemBatch(nis: seq<NovoItemVenda>) returns (r: Option<seq<ItemVenda>>)
      requires Valid()
      modifies this`itensVenda, this`nextItemId
      ensures Valid()
      ensures r.Some? <==> forall i | 0 <= i < |nis| :: ItemStorable(nis[i].produtoId, nis[i].vendaId, nis[i].quantidade)
      ensures r.Some? ==>
                && r.value == StoredItems(old(nextItemId), nis)
                && itensVenda == old(itensVenda) + r.value
                && nextItemId == old(nextItemId) + |nis|
      ensures r.None? ==> itensVenda == old(itensVenda) && nextItemId == old(nextItemId)
    {
      var ok := AllStorable(nis);
      if !ok {
        return None;
      }
      ghost var rows0 := itensVenda;
      var next0 := nextItemId;
      for i := 0 to |nis|
        invariant Valid()
        invariant itensVenda == rows0 + StoredItems(next0, nis[..i])
        invariant nextItemId == next0 + i
      {
        var row := InsertItem(nis[i]);
        StoredItemsStep(next0, nis, i);
        AppendAssoc(rows0, StoredItems(next0, nis[..i]), [StoredItem(next0 + i, nis[i])]);
      }
      assert nis[..|nis|] == nis;
      r := Some(StoredItems(next0, nis));
    }

    /**
      `update(produtos).set({estoqueAtual: estoqueAtual - q}).where(id = produtoId)`:
      no lower bound is checked, and an unknown id matches no row.
    */
    method DecrementStock(produtoId: int, q: int)
      requires Valid()
      modifies this`produtos
      ensures Valid()
      ensures produtos.Keys == old(produtos).Keys
      ensures produtos == if produtoId in old(produtos)
                          then old(produtos)[produtoId := old(produtos)[produtoId].(estoqueAtual := old(produtos)[produtoId].estoqueAtual - q)]
                          else old(produtos)
    {
      if produtoId in produtos {
        produtos := produtos[produtoId := produtos[produtoId].(estoqueAtual := produtos[produtoId].estoqueAtual - q)];
      }
    }

    /** `insert(contasReceber)`: refused on a dangling reference; status defaults to pendente. */
    method InsertContaReceber(nc: NovaContaReceber) returns (r: Option<ContaReceber>)
      requires Valid()
      modifies this`contasReceber, this`nextContaReceberId
      ensures Valid()
      ensures r.Some? <==> ContaReceberRefsOk(nc.clienteId, nc.vendaId)
      ensures r.Some? ==>
                && r.value == ContaReceber(old(nextContaReceberId), nc.clienteId, nc.vendaId, nc.valor,
                                           nc.dataVencimento, nc.status.GetOr(DefaultContaStatus))
                && contasReceber == old(contasReceber) + [r.value]
                && nextContaReceberId == old(nextContaReceberId) + 1
      ensures r.None? ==> contasReceber == old(contasReceber) && nextContaReceberId == old(nextContaReceberId)
    {
      if !ContaReceberRefsOk(nc.clienteId, nc.vendaId) {
        return None;
      }
      var c := ContaReceber(nextContaReceberId, nc.clienteId, nc.vendaId, nc.valor,
                            nc.dataVencimento, nc.status.GetOr(DefaultContaStatus));
      contasReceber := contasReceber + [c];
      nextContaReceberId := nextContaReceberId + 1;
      r := Some(c);
    }
  }
}
