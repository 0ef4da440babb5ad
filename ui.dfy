/** What the two blockchain pages share: the phases of a transaction and the toast notifications they raise. */
module Ui {

  /** `'idle' | 'pending' | 'confirmed' | 'failed'` */
  datatype Phase = Idle | Pending | Confirmed | Failed

  /** One call of the toast hook; `destructive` is the red variant used for errors. */
  datatype Toast = Toast(title: string, description: string, destructive: bool)

  const WalletNotConnectedToast: Toast := Toast("Wallet Not Connected", "Please connect your wallet first.", true)
}
