/**
 * The bank-account teaching example (EjemplosMundoReal_POO/banco.py): a
 * holder's name and a balance changed by deposits and guarded withdrawals.
 */
module Banco {

  class CuentaBancaria {
    /** No operation reassigns the holder. */
    const titular: string
    var saldo: real

    /** A new account holds the given balance, 0 when none is given. */
    constructor (titular: string, saldo: real := 0.0)
      ensures this.titular == titular && this.saldo == saldo
    {
      this.titular := titular;
      this.saldo := saldo;
    }

    /** `depositar`: adds the amount as given; there is no check on it. */
    method Depositar(cantidad: real)
      modifies this`saldo
      ensures saldo == old(saldo) + cantidad
    {
      saldo := saldo + cantidad;
    }

    /** `retirar`: takes the amount out only when the balance covers it, so a
        withdrawal never leaves a negative balance; otherwise nothing changes. */
    method Retirar(cantidad: real)
      modifies this`saldo
      ensures cantidad <= old(saldo) ==> saldo == old(saldo) - cantidad && saldo >= 0.0
      ensures cantidad > old(saldo) ==> saldo == old(saldo)
    {
      if cantidad <= saldo {
        saldo := saldo - cantidad;
      }
    }
  }
}
